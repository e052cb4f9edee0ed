/**
 * The back-office product pages: the session and role gates, the update
 * dispatched by group, the image deletions and uploads that follow an
 * update whose answer mentions "sucesso", and the principal flag chosen
 * per upload. The logged-in staff user is the session attribute
 * "usuarioLogado", passed in as `logado`; each uploaded file comes with
 * the random part of its stored name and the store identifier it receives.
 */
module ProdutoControle {
  import opened Wrappers
  import opened Text
  import opened Tempo
  import opened Usuarios
  import opened Produtos
  import opened Repositorios
  import opened Sessoes
  import ProdutoServico

  const PARA_LOGIN := "/login"
  const NEGADO := "/produtos?erro=Acesso negado"
  const NEGADO_CADASTRO := "/produtos?erro=Acesso negado. Apenas administradores podem cadastrar produtos"
  const NEGADO_STATUS := "/produtos?erro=Acesso negado. Apenas administradores podem alterar status"
  const PARA_NAO_ENCONTRADO := "/produtos?erro=Produto não encontrado"

  const VISTA_LISTAR := "produtos/listar"
  const VISTA_CADASTRAR := "produtos/cadastrar"
  const VISTA_ALTERAR := "produtos/alterar"
  const VISTA_VISUALIZAR := "produtos/visualizar"

  /** The word the update handler looks for in the service's answer. */
  const SUCESSO := "sucesso"

  // ---------------------------------------------------------------- gates

  /**
   * The gate of the administrator-only handlers: an anonymous session goes
   * to /login, a user of another group (or of none) to `negado`.
   */
  function PortaoAdmin(logado: Option<Usuario>, negado: string): (r: Option<Resposta>)
    ensures r.None? <==> logado.Some? && GetGrupo(logado.value) == Some(ADMINISTRADOR)
    ensures logado.None? ==> r == Some(Redirecionar(PARA_LOGIN))
    ensures logado.Some? && GetGrupo(logado.value) != Some(ADMINISTRADOR) ==> r == Some(Redirecionar(negado))
  {
    if logado.None? then Some(Redirecionar(PARA_LOGIN))
    else if GetGrupo(logado.value) != Some(ADMINISTRADOR) then Some(Redirecionar(negado))
    else None
  }

  /** The flags the listing and edit pages show: at most one of them holds. */
  datatype Papeis = Papeis(isAdmin: bool, isEstoquista: bool)

  function PapeisDe(u: Usuario): (p: Papeis)
    ensures p.isAdmin <==> GetGrupo(u) == Some(ADMINISTRADOR)
    ensures p.isEstoquista <==> GetGrupo(u) == Some(ESTOQUISTA)
    ensures !(p.isAdmin && p.isEstoquista)
  {
    Papeis(GetGrupo(u) == Some(ADMINISTRADOR), GetGrupo(u) == Some(ESTOQUISTA))
  }

  // ---------------------------------------------------------------- messages

  /** The update handler's test of the service's answer: `resultado.contains("sucesso")`. */
  predicate MencionaSucesso(resultado: string) {
    Contains(resultado, SUCESSO)
  }

  lemma NomeObrigatorioSemSucesso()
    ensures !MencionaSucesso(ProdutoServico.NOME_OBRIGATORIO)
  {
    NotContainsMissingChar(ProdutoServico.NOME_OBRIGATORIO, SUCESSO, 's');
  }

  lemma NomeLongoSemSucesso()
    ensures !MencionaSucesso(ProdutoServico.NOME_LONGO)
  {
    NotContainsOnlyAtEnd("Nome do produto deve " + "ter no máximo 200 " + "caractere", 's', SUCESSO);
  }

  lemma AvaliacaoInvalidaSemSucesso()
    ensures !MencionaSucesso(ProdutoServico.AVALIACAO_INVALIDA)
  {
    NotContainsMissingChar(ProdutoServico.AVALIACAO_INVALIDA, SUCESSO, 'u');
  }

  lemma DescricaoObrigatoriaSemSucesso()
    ensures !MencionaSucesso(ProdutoServico.DESCRICAO_OBRIGATORIA)
  {
    NotContainsMissingChar(ProdutoServico.DESCRICAO_OBRIGATORIA, SUCESSO, 'u');
  }

  lemma DescricaoLongaSemSucesso()
    ensures !MencionaSucesso(ProdutoServico.DESCRICAO_LONGA)
  {
    assert 'u' !in "Descrição detalhada deve " && 'u' !in "ter no máximo 2000 caracteres";
    NotContainsMissingChar(ProdutoServico.DESCRICAO_LONGA, SUCESSO, 'u');
  }

  lemma PrecoInvalidoSemSucesso()
    ensures !MencionaSucesso(ProdutoServico.PRECO_INVALIDO)
  {
    NotContainsMissingChar(ProdutoServico.PRECO_INVALIDO, SUCESSO, 'c');
  }

  lemma EstoqueInvalidoSemSucesso()
    ensures !MencionaSucesso(ProdutoServico.ESTOQUE_INVALIDO)
  {
    assert 'c' !in "Quantidade em estoque " && 'c' !in "deve ser maior ou igual a zero";
    NotContainsMissingChar(ProdutoServico.ESTOQUE_INVALIDO, SUCESSO, 'c');
  }

  lemma NaoEncontradoSemSucesso()
    ensures !MencionaSucesso(ProdutoServico.PRODUTO_NAO_ENCONTRADO)
  {
    NotContainsMissingChar(ProdutoServico.PRODUTO_NAO_ENCONTRADO, SUCESSO, 's');
  }

  /**
   * Of everything the two update services answer, exactly the two success
   * messages mention "sucesso": the test on the word is the test on the
   * outcome.
   */
  lemma SucessoSoNasAlteracoes()
    ensures forall m :: m in ProdutoServico.MensagensProduto ==> !MencionaSucesso(m)
    ensures !MencionaSucesso(ProdutoServico.PRODUTO_NAO_ENCONTRADO)
    ensures MencionaSucesso(ProdutoServico.PRODUTO_ALTERADO) && MencionaSucesso(ProdutoServico.ESTOQUE_ALTERADO)
  {
    NomeObrigatorioSemSucesso();
    NomeLongoSemSucesso();
    AvaliacaoInvalidaSemSucesso();
    DescricaoObrigatoriaSemSucesso();
    DescricaoLongaSemSucesso();
    PrecoInvalidoSemSucesso();
    EstoqueInvalidoSemSucesso();
    NaoEncontradoSemSucesso();
    assert ProdutoServico.PRODUTO_ALTERADO == "Produto alterado com " + SUCESSO + "";
    ContainsPiece("Produto alterado com ", SUCESSO, "");
    assert ProdutoServico.ESTOQUE_ALTERADO == "Quantidade em estoque alterada com " + SUCESSO + "";
    ContainsPiece("Quantidade em estoque alterada com ", SUCESSO, "");
  }

  // ---------------------------------------------------------------- the update by group

  /** The form fields as the update and registration handlers bind them: all five are required. */
  function Formulario(nome: string, avaliacao: real, descricaoDetalhada: string, preco: real, quantidadeEstoque: int)
    : (f: ProdutoServico.FormProduto)
    ensures f.nome == Some(nome) && f.avaliacao == Some(avaliacao) && f.descricaoDetalhada == Some(descricaoDetalhada)
    ensures f.preco == Some(preco) && f.quantidadeEstoque == Some(quantidadeEstoque)
  {
    ProdutoServico.FormProduto(Some(nome), Some(avaliacao), Some(descricaoDetalhada), Some(preco), Some(quantidadeEstoque))
  }

  /**
   * Whether the update of product `id` goes through: the product exists,
   * and an administrator's five fields pass the checks, or a stock clerk's
   * quantity is not negative.
   */
  predicate AlteracaoAceita(g: Grupo, produtos: seq<Produto>, id: int, f: ProdutoServico.FormProduto) {
    && ProdutoPorSequencial(produtos, id).Some?
    && match g
       case ADMINISTRADOR => ProdutoServico.ValidarProduto(f).None?
       case ESTOQUISTA => f.quantidadeEstoque.Some? && f.quantidadeEstoque.value >= 0
  }

  /** The product store after an accepted update: every field for an administrator, the stock alone for a stock clerk. */
  function ProdutosAlterados(g: Grupo, produtos: seq<Produto>, id: int, f: ProdutoServico.FormProduto, agora: Instante)
    : seq<Produto>
    requires AlteracaoAceita(g, produtos, id, f)
  {
    var p := ProdutoPorSequencial(produtos, id).value;
    match g
    case ADMINISTRADOR =>
      Salvar(produtos, ProdutoServico.Alterado(p, f.nome.value, f.avaliacao.value, f.descricaoDetalhada.value,
                                               f.preco.value, f.quantidadeEstoque.value, agora), IdProduto)
    case ESTOQUISTA =>
      Salvar(produtos, ProdutoServico.EstoqueAlterado(p, f.quantidadeEstoque.value, agora), IdProduto)
  }

  /**
   * A stock clerk's update changes nothing but the stock and the change
   * time of the product it names: every product afterwards was there
   * before, or is that product with only those two fields different.
   */
  lemma EstoquistaSoEstoque(produtos: seq<Produto>, id: int, f: ProdutoServico.FormProduto, agora: Instante)
    requires AlteracaoAceita(ESTOQUISTA, produtos, id, f)
    ensures var p := ProdutoPorSequencial(produtos, id).value;
      forall q :: q in ProdutosAlterados(ESTOQUISTA, produtos, id, f, agora) ==>
        q in produtos
        || (q.(quantidadeEstoque := p.quantidadeEstoque, dataUltimaAlteracao := p.dataUltimaAlteracao) == p
            && q.quantidadeEstoque == f.quantidadeEstoque.value && q.dataUltimaAlteracao == agora)
  {
    var p := ProdutoPorSequencial(produtos, id).value;
    ProdutoServico.SalvarSoAcrescentaX(produtos, ProdutoServico.EstoqueAlterado(p, f.quantidadeEstoque.value, agora),
                                       IdProduto);
  }

  // ---------------------------------------------------------------- deletions

  /** The image store after `deletarImagem` of each identifier in turn; an unknown identifier deletes nothing. */
  function SemAsDeletadas(imagens: seq<ProdutoImagem>, ids: seq<string>): (r: seq<ProdutoImagem>)
    ensures forall x :: x in r <==> x in imagens && x.id !in ids
    ensures IdsDistintos(imagens, IdImagem) ==> IdsDistintos(r, IdImagem)
    decreases |ids|
  {
    if ids == [] then imagens
    else
      var depois := if exists x :: x in imagens && x.id == ids[0] then Remover(imagens, ids[0], IdImagem) else imagens;
      SemAsDeletadas(depois, ids[1..])
  }

  // ---------------------------------------------------------------- uploads

  /** One uploaded file with the random part of its stored name and the store identifier its record receives. */
  datatype Envio = Envio(arquivo: ProdutoServico.Arquivo, aleatorio: string, novoId: string)

  /** What the upload loop leaves: the image store, and the exception that stopped the loop, if one did. */
  datatype Envios = Envios(imagens: seq<ProdutoImagem>, excecao: Option<string>)

  /**
   * The principal flag of upload `i`: entry `i` of the flag list when the
   * list is present and that long, otherwise false. The conditional has
   * type `boolean`, so a null entry is unboxed there and throws (`None`).
   */
  function PrincipalDoEnvio(flags: Option<seq<Option<bool>>>, i: nat): (r: Option<bool>)
    ensures r == Some(true) <==> flags.Some? && i < |flags.value| && flags.value[i] == Some(true)
    ensures r.None? <==> flags.Some? && i < |flags.value| && flags.value[i].None?
  {
    if flags.Some? && i < |flags.value| then flags.value[i] else Some(false)
  }

  /** The image store after `salvarImagem` of one non-empty upload with a non-null flag. */
  function ComEnvio(imagens: seq<ProdutoImagem>, produto: int, e: Envio, principal: bool, agora: Instante)
    : (r: Checked<seq<ProdutoImagem>>)
    ensures r.Throws? <==> ProdutoServico.Extensao(e.arquivo.nomeOriginal).Throws?
  {
    match ProdutoServico.Extensao(e.arquivo.nomeOriginal)
    case Throws(x) => Throws(x)
    case Returns(extensao) =>
      var nova := ProdutoServico.ImagemSalva(e.novoId, produto, e.arquivo.nomeOriginal.value, e.aleatorio + extensao,
                                             principal, agora);
      Returns(Salvar(if principal then ProdutoServico.SemPrincipal(imagens, produto) else imagens, nova, IdImagem))
  }

  /** The upload loop from upload `i` on: empty files are skipped, the first exception stops the loop. */
  function ComEnvios(imagens: seq<ProdutoImagem>, produto: int, envios: seq<Envio>, flags: Option<seq<Option<bool>>>,
                     agora: Instante, i: nat): Envios
    requires i <= |envios|
    decreases |envios| - i, 1
  {
    if i == |envios| then Envios(imagens, None) else EnvioDaVez(imagens, produto, envios, flags, agora, i)
  }

  /** Upload `i`, then the loop from upload `i + 1` on. */
  function EnvioDaVez(imagens: seq<ProdutoImagem>, produto: int, envios: seq<Envio>, flags: Option<seq<Option<bool>>>,
                      agora: Instante, i: nat): Envios
    requires i < |envios|
    decreases |envios| - i, 0
  {
    if envios[i].arquivo.vazio then ComEnvios(imagens, produto, envios, flags, agora, i + 1)
    else match PrincipalDoEnvio(flags, i)
      case None => Envios(imagens, Some(NullPointer))
      case Some(principal) =>
        match ComEnvio(imagens, produto, envios[i], principal, agora)
        case Throws(x) => Envios(imagens, Some(x))
        case Returns(depois) => ComEnvios(depois, produto, envios, flags, agora, i + 1)
  }

  /** The upload loop skips an empty file and ends after the last one. */
  lemma ComEnviosPula(imagens: seq<ProdutoImagem>, produto: int, envios: seq<Envio>,
                      flags: Option<seq<Option<bool>>>, agora: Instante, i: nat)
    requires i <= |envios|
    ensures i == |envios| ==> ComEnvios(imagens, produto, envios, flags, agora, i) == Envios(imagens, None)
    ensures i < |envios| && envios[i].arquivo.vazio ==>
      ComEnvios(imagens, produto, envios, flags, agora, i) == ComEnvios(imagens, produto, envios, flags, agora, i + 1)
  {
  }

  /** One step of the upload loop over a non-empty file, as `ComEnvios` unfolds it. */
  lemma ComEnviosPasso(imagens: seq<ProdutoImagem>, produto: int, envios: seq<Envio>,
                       flags: Option<seq<Option<bool>>>, agora: Instante, i: nat)
    requires i < |envios|
    ensures !envios[i].arquivo.vazio && PrincipalDoEnvio(flags, i).None? ==>
      ComEnvios(imagens, produto, envios, flags, agora, i) == Envios(imagens, Some(NullPointer))
    ensures !envios[i].arquivo.vazio && PrincipalDoEnvio(flags, i).Some? ==>
      match ComEnvio(imagens, produto, envios[i], PrincipalDoEnvio(flags, i).value, agora)
      case Throws(x) => ComEnvios(imagens, produto, envios, flags, agora, i) == Envios(imagens, Some(x))
      case Returns(depois) =>
        ComEnvios(imagens, produto, envios, flags, agora, i) == ComEnvios(depois, produto, envios, flags, agora, i + 1)
  {
  }

  /** Upload `i` goes through: its file is empty (and skipped), or its flag is non-null and its name has a dot. */
  predicate EnvioAceito(envios: seq<Envio>, flags: Option<seq<Option<bool>>>, i: nat)
    requires i < |envios|
  {
    envios[i].arquivo.vazio
    || (PrincipalDoEnvio(flags, i).Some? && ProdutoServico.Extensao(envios[i].arquivo.nomeOriginal).Returns?)
  }

  /** The loop stops on an exception exactly when some upload from `i` on does not go through. */
  lemma {:induction false} EnviosSemExcecao(imagens: seq<ProdutoImagem>, produto: int, envios: seq<Envio>,
                                            flags: Option<seq<Option<bool>>>, agora: Instante, i: nat)
    requires i <= |envios|
    ensures ComEnvios(imagens, produto, envios, flags, agora, i).excecao.None? <==>
      forall j :: i <= j < |envios| ==> EnvioAceito(envios, flags, j)
    decreases |envios| - i
  {
    if i < |envios| {
      if envios[i].arquivo.vazio {
        EnviosSemExcecao(imagens, produto, envios, flags, agora, i + 1);
      } else if PrincipalDoEnvio(flags, i).Some? {
        var c := ComEnvio(imagens, produto, envios[i], PrincipalDoEnvio(flags, i).value, agora);
        if c.Returns? {
          EnviosSemExcecao(c.value, produto, envios, flags, agora, i + 1);
          assert EnvioAceito(envios, flags, i);
        } else {
          assert !EnvioAceito(envios, flags, i);
        }
      } else {
        assert !EnvioAceito(envios, flags, i);
      }
    }
  }

  /** Every image `SemPrincipal` leaves was there before, or belongs to the product it cleared. */
  lemma SemPrincipalDoProduto(imagens: seq<ProdutoImagem>, produto: int)
    ensures forall x :: x in ProdutoServico.SemPrincipal(imagens, produto) ==> x in imagens || x.produtoSequencialId == produto
  {
    var r := ProdutoServico.SemPrincipal(imagens, produto);
    forall x | x in r
      ensures x in imagens || x.produtoSequencialId == produto
    {
      var k :| 0 <= k < |r| && r[k] == x;
      assert r[k].produtoSequencialId == imagens[k].produtoSequencialId;
      if imagens[k].produtoSequencialId != produto {
        assert r[k] == imagens[k];
      }
    }
  }

  /**
   * Uploads for one product touch no other product's images: every image
   * the loop leaves was there before or belongs to that product.
   */
  lemma {:induction false} EnviosSoDoProduto(imagens: seq<ProdutoImagem>, produto: int, envios: seq<Envio>,
                                             flags: Option<seq<Option<bool>>>, agora: Instante, i: nat)
    requires i <= |envios|
    ensures forall x :: x in ComEnvios(imagens, produto, envios, flags, agora, i).imagens ==>
      x in imagens || x.produtoSequencialId == produto
    decreases |envios| - i
  {
    if i < |envios| {
      if envios[i].arquivo.vazio {
        EnviosSoDoProduto(imagens, produto, envios, flags, agora, i + 1);
      } else if PrincipalDoEnvio(flags, i).Some? {
        var principal := PrincipalDoEnvio(flags, i).value;
        match ProdutoServico.Extensao(envios[i].arquivo.nomeOriginal)
        case Throws(x) =>
        case Returns(extensao) =>
          var e := envios[i];
          var nova := ProdutoServico.ImagemSalva(e.novoId, produto, e.arquivo.nomeOriginal.value, e.aleatorio + extensao,
                                                 principal, agora);
          var base := if principal then ProdutoServico.SemPrincipal(imagens, produto) else imagens;
          var depois := Salvar(base, nova, IdImagem);
          assert ComEnvio(imagens, produto, e, principal, agora) == Returns(depois);
          SemPrincipalDoProduto(imagens, produto);
          ProdutoServico.SalvarSoAcrescentaX(base, nova, IdImagem);
          EnviosSoDoProduto(depois, produto, envios, flags, agora, i + 1);
      }
    }
  }

  // ---------------------------------------------------------------- registration target

  /** `p` is first in the listing by creation date, newest first. */
  predicate PrimeiroPorData(p: Produto, produtos: seq<Produto>) {
    p in produtos && forall q :: q in produtos ==> q.dataCriacao <= p.dataCriacao
  }

  lemma {:induction false} ExistePrimeiroPorData(produtos: seq<Produto>)
    requires produtos != []
    ensures exists p :: PrimeiroPorData(p, produtos)
  {
    if |produtos| > 1 {
      ExistePrimeiroPorData(produtos[1..]);
      var p :| PrimeiroPorData(p, produtos[1..]);
      assert forall q :: q in produtos ==> q == produtos[0] || q in produtos[1..];
      if produtos[0].dataCriacao <= p.dataCriacao {
        assert PrimeiroPorData(p, produtos);
      } else {
        assert PrimeiroPorData(produtos[0], produtos);
      }
    } else {
      assert PrimeiroPorData(produtos[0], produtos);
    }
  }

  /**
   * The page drawn after a refused update, with the product reloaded by
   * `buscarPorSequencialId(id).get()`: when the product does not exist,
   * `get` throws.
   */
  function RecarregarProduto(achado: Option<Produto>, erro: string): (r: Checked<Resposta>)
    ensures r.Throws? <==> achado.None?
    ensures r.Throws? ==> r.exception == NoSuchElement
    ensures r.Returns? ==> r.value == Exibir(VISTA_ALTERAR, Some(erro))
  {
    if achado.None? then Throws(NoSuchElement) else Returns(Exibir(VISTA_ALTERAR, Some(erro)))
  }

  /** The reload as evidently intended: a missing product gets the "Produto não encontrado" redirect of the edit page. */
  function RecarregarProdutoCorrigido(achado: Option<Produto>, erro: string): (r: Checked<Resposta>)
    ensures r.Returns?
    ensures achado.None? ==> r.value == Redirecionar(PARA_NAO_ENCONTRADO)
    ensures achado.Some? ==> r == RecarregarProduto(achado, erro)
  {
    if achado.None? then Returns(Redirecionar(PARA_NAO_ENCONTRADO)) else Returns(Exibir(VISTA_ALTERAR, Some(erro)))
  }

  /** An update of a missing product by a staff user of either group ends in the exception, never in a page. */
  lemma AlteracaoDeInexistenteLanca(g: Grupo, produtos: seq<Produto>, id: int, f: ProdutoServico.FormProduto)
    requires ProdutoPorSequencial(produtos, id).None?
    ensures !AlteracaoAceita(g, produtos, id, f)
    ensures !MencionaSucesso(ProdutoServico.PRODUTO_NAO_ENCONTRADO)
    ensures RecarregarProduto(ProdutoPorSequencial(produtos, id), ProdutoServico.PRODUTO_NAO_ENCONTRADO)
      == Throws(NoSuchElement)
    ensures RecarregarProdutoCorrigido(ProdutoPorSequencial(produtos, id), ProdutoServico.PRODUTO_NAO_ENCONTRADO)
      == Returns(Redirecionar(PARA_NAO_ENCONTRADO))
  {
    NaoEncontradoSemSucesso();
  }

  // ---------------------------------------------------------------- the controller

  class ProdutoController {
    const produtoService: ProdutoServico.ProdutoService

    constructor (produtoService: ProdutoServico.ProdutoService)
      ensures this.produtoService == produtoService
    {
      this.produtoService := produtoService;
    }

    /** `listarProdutos`: any logged-in staff user; the search and the paging are not modelled. */
    function ListarProdutos(logado: Option<Usuario>): (r: (Resposta, Option<Papeis>))
      ensures logado.None? <==> r.0 == Redirecionar(PARA_LOGIN)
      ensures logado.None? ==> r.1.None?
      ensures logado.Some? ==> r == (Exibir(VISTA_LISTAR, None), Some(PapeisDe(logado.value)))
    {
      if logado.None? then (Redirecionar(PARA_LOGIN), None) else (Exibir(VISTA_LISTAR, None), Some(PapeisDe(logado.value)))
    }

    /** `cadastrarProduto` (the form page): administrators only. */
    function PaginaCadastro(logado: Option<Usuario>): (r: Resposta)
      ensures r == Exibir(VISTA_CADASTRAR, None) <==> logado.Some? && GetGrupo(logado.value) == Some(ADMINISTRADOR)
      ensures logado.Some? && GetGrupo(logado.value) == Some(ESTOQUISTA) ==> r == Redirecionar(NEGADO_CADASTRO)
      ensures logado.None? ==> r == Redirecionar(PARA_LOGIN)
    {
      match PortaoAdmin(logado, NEGADO_CADASTRO)
      case Some(negado) => negado
      case None => Exibir(VISTA_CADASTRAR, None)
    }

    /** `alterarProduto` (the form page): any logged-in staff user, for an existing product. */
    function PaginaAlteracao(logado: Option<Usuario>, id: int): (r: (Resposta, Option<Papeis>))
      reads produtoService.produtoRepo
      ensures logado.None? ==> r == (Redirecionar(PARA_LOGIN), None)
      ensures logado.Some? && produtoService.produtoRepo.FindBySequencialId(id).None? ==>
        r == (Redirecionar(PARA_NAO_ENCONTRADO), None)
      ensures logado.Some? && produtoService.produtoRepo.FindBySequencialId(id).Some? ==>
        r == (Exibir(VISTA_ALTERAR, None), Some(PapeisDe(logado.value)))
    {
      if logado.None? then (Redirecionar(PARA_LOGIN), None)
      else if produtoService.produtoRepo.FindBySequencialId(id).None? then (Redirecionar(PARA_NAO_ENCONTRADO), None)
      else (Exibir(VISTA_ALTERAR, None), Some(PapeisDe(logado.value)))
    }

    /** `visualizarProduto`: any logged-in staff user, stock clerks included; there is no group check. */
    function VisualizarProduto(logado: Option<Usuario>, id: int): (r: Resposta)
      reads produtoService.produtoRepo
      ensures r == Exibir(VISTA_VISUALIZAR, None) <==>
        logado.Some? && produtoService.produtoRepo.FindBySequencialId(id).Some?
      ensures logado.None? ==> r == Redirecionar(PARA_LOGIN)
    {
      if logado.None? then Redirecionar(PARA_LOGIN)
      else if produtoService.produtoRepo.FindBySequencialId(id).None? then Redirecionar(PARA_NAO_ENCONTRADO)
      else Exibir(VISTA_VISUALIZAR, None)
    }

    /** The upload loop of both handlers. */
    method EnviarImagens(produto: int, envios: seq<Envio>, flags: Option<seq<Option<bool>>>, agora: Instante)
      returns (excecao: Option<string>)
      requires produtoService.imagemRepo.Valid()
      modifies produtoService.imagemRepo
      ensures produtoService.imagemRepo.Valid()
      ensures ComEnvios(old(produtoService.imagemRepo.imagens), produto, envios, flags, agora, 0)
        == Envios(produtoService.imagemRepo.imagens, excecao)
    {
      ghost var alvo := ComEnvios(produtoService.imagemRepo.imagens, produto, envios, flags, agora, 0);
      var i := 0;
      while i < |envios|
        invariant 0 <= i <= |envios|
        invariant produtoService.imagemRepo.Valid()
        invariant ComEnvios(produtoService.imagemRepo.imagens, produto, envios, flags, agora, i) == alvo
      {
        excecao := EnviarUma(produto, envios, flags, agora, i);
        if excecao.Some? {
          return;
        }
        i := i + 1;
      }
      ComEnviosPula(produtoService.imagemRepo.imagens, produto, envios, flags, agora, i);
      return None;
    }

    /** One pass of the upload loop: an empty file is skipped; otherwise its flag, then `salvarImagem`. */
    method EnviarUma(produto: int, envios: seq<Envio>, flags: Option<seq<Option<bool>>>, agora: Instante, i: nat)
      returns (excecao: Option<string>)
      requires i < |envios| && produtoService.imagemRepo.Valid()
      modifies produtoService.imagemRepo
      ensures produtoService.imagemRepo.Valid()
      ensures excecao.Some? ==>
        ComEnvios(old(produtoService.imagemRepo.imagens), produto, envios, flags, agora, i)
          == Envios(produtoService.imagemRepo.imagens, excecao)
      ensures excecao.None? ==>
        ComEnvios(old(produtoService.imagemRepo.imagens), produto, envios, flags, agora, i)
          == ComEnvios(produtoService.imagemRepo.imagens, produto, envios, flags, agora, i + 1)
    {
      if envios[i].arquivo.vazio {
        ComEnviosPula(produtoService.imagemRepo.imagens, produto, envios, flags, agora, i);
        return None;
      }
      ComEnviosPasso(produtoService.imagemRepo.imagens, produto, envios, flags, agora, i);
      var principal := PrincipalDoEnvio(flags, i);
      if principal.None? {
        return Some(NullPointer);
      }
      ghost var antes := produtoService.imagemRepo.imagens;
      var resposta := produtoService.SalvarImagem(produto, envios[i].arquivo, principal, envios[i].aleatorio,
                                                  envios[i].novoId, agora);
      if resposta.Throws? {
        assert ComEnvio(antes, produto, envios[i], principal.value, agora) == Throws(resposta.exception);
        return Some(resposta.exception);
      }
      assert ComEnvio(antes, produto, envios[i], principal.value, agora) == Returns(produtoService.imagemRepo.imagens);
      return None;
    }

    /** The deletion loop of the update handler. */
    method DeletarImagens(ids: seq<string>)
      modifies produtoService.imagemRepo
      ensures produtoService.imagemRepo.imagens == SemAsDeletadas(old(produtoService.imagemRepo.imagens), ids)
    {
      var k := 0;
      while k < |ids|
        invariant 0 <= k <= |ids|
        invariant SemAsDeletadas(produtoService.imagemRepo.imagens, ids[k..])
          == SemAsDeletadas(old(produtoService.imagemRepo.imagens), ids)
      {
        var resultado := produtoService.DeletarImagem(ids[k]);
        assert ids[k..][1..] == ids[k + 1..];
        k := k + 1;
      }
      assert ids[k..] == [];
    }

    /**
     * `processarCadastro`: administrators only; on success the uploads go
     * to the product listed first by creation date, newest first (the new
     * one unless another was created at the same instant or later).
     */
    method ProcessarCadastro(logado: Option<Usuario>, nome: string, avaliacao: real, descricaoDetalhada: string,
                             preco: real, quantidadeEstoque: int, envios: seq<Envio>,
                             flags: Option<seq<Option<bool>>>, novoId: string, agora: Instante, excecao: string)
      returns (r: Checked<Resposta>)
      requires produtoService.imagemRepo.Valid()
      modifies produtoService.produtoRepo, produtoService.imagemRepo
      ensures produtoService.imagemRepo.Valid()
      ensures PortaoAdmin(logado, NEGADO).Some? ==>
        && r == Returns(PortaoAdmin(logado, NEGADO).value)
        && produtoService.produtoRepo.produtos == old(produtoService.produtoRepo.produtos)
        && produtoService.imagemRepo.imagens == old(produtoService.imagemRepo.imagens)
      ensures (PortaoAdmin(logado, NEGADO).None? &&
               (ProdutoServico.ValidarProduto(Formulario(nome, avaliacao, descricaoDetalhada, preco, quantidadeEstoque)).Some?
                || ProdutoServico.ProximoSequencialId(old(produtoService.produtoRepo.produtos)).None?)) ==>
        && r.Returns? && r.value.Exibir? && r.value.vista == VISTA_CADASTRAR && r.value.erro.Some?
        && produtoService.produtoRepo.produtos == old(produtoService.produtoRepo.produtos)
        && produtoService.imagemRepo.imagens == old(produtoService.imagemRepo.imagens)
      ensures (PortaoAdmin(logado, NEGADO).None? &&
               ProdutoServico.ValidarProduto(Formulario(nome, avaliacao, descricaoDetalhada, preco, quantidadeEstoque)).None? &&
               ProdutoServico.ProximoSequencialId(old(produtoService.produtoRepo.produtos)).Some?) ==>
        && produtoService.produtoRepo.produtos == Salvar(old(produtoService.produtoRepo.produtos),
             Produtos.Novo(novoId, nome, avaliacao, descricaoDetalhada, preco, quantidadeEstoque, agora)
               .(sequencialId := ProdutoServico.ProximoSequencialId(old(produtoService.produtoRepo.produtos))),
             IdProduto)
        && exists p :: PrimeiroPorData(p, produtoService.produtoRepo.produtos) &&
             if p.sequencialId.None? then
               r == Returns(Redirecionar("/produtos?sucesso=" + ProdutoServico.PRODUTO_CADASTRADO))
               && produtoService.imagemRepo.imagens == old(produtoService.imagemRepo.imagens)
             else
               var fim := ComEnvios(old(produtoService.imagemRepo.imagens), p.sequencialId.value, envios, flags, agora, 0);
               && produtoService.imagemRepo.imagens == fim.imagens
               && (fim.excecao.None? ==> r == Returns(Redirecionar("/produtos?sucesso=" + ProdutoServico.PRODUTO_CADASTRADO)))
               && (fim.excecao.Some? ==> r == Throws(fim.excecao.value))
    {
      var portao := PortaoAdmin(logado, NEGADO);
      if portao.Some? {
        return Returns(portao.value);
      }
      var resultado := produtoService.CadastrarProduto(
        Formulario(nome, avaliacao, descricaoDetalhada, preco, quantidadeEstoque), novoId, agora, excecao);
      if resultado != ProdutoServico.PRODUTO_CADASTRADO {
        return Returns(Exibir(VISTA_CADASTRAR, Some(resultado)));
      }
      ProdutoServico.SalvarSoAcrescentaX(old(produtoService.produtoRepo.produtos),
        Produtos.Novo(novoId, nome, avaliacao, descricaoDetalhada, preco, quantidadeEstoque, agora)
          .(sequencialId := ProdutoServico.ProximoSequencialId(old(produtoService.produtoRepo.produtos))), IdProduto);
      ExistePrimeiroPorData(produtoService.produtoRepo.produtos);
      var criado :| PrimeiroPorData(criado, produtoService.produtoRepo.produtos);
      r := Returns(Redirecionar("/produtos?sucesso=" + resultado));
      if criado.sequencialId.Some? {
        var falha := EnviarImagens(criado.sequencialId.value, envios, flags, agora);
        if falha.Some? {
          r := Throws(falha.value);
        }
      }
    }

    /** The service call the update handler picks by group; the answer mentions "sucesso" exactly when the update is saved. */
    method AlterarConformeGrupo(g: Grupo, id: int, f: ProdutoServico.FormProduto, agora: Instante)
      returns (resultado: string)
      modifies produtoService.produtoRepo
      ensures MencionaSucesso(resultado) <==> AlteracaoAceita(g, old(produtoService.produtoRepo.produtos), id, f)
      ensures AlteracaoAceita(g, old(produtoService.produtoRepo.produtos), id, f) ==>
        produtoService.produtoRepo.produtos == ProdutosAlterados(g, old(produtoService.produtoRepo.produtos), id, f, agora)
      ensures !AlteracaoAceita(g, old(produtoService.produtoRepo.produtos), id, f) ==>
        produtoService.produtoRepo.produtos == old(produtoService.produtoRepo.produtos)
      ensures AlteracaoAceita(g, old(produtoService.produtoRepo.produtos), id, f) ==>
        resultado == if g == ADMINISTRADOR then ProdutoServico.PRODUTO_ALTERADO else ProdutoServico.ESTOQUE_ALTERADO
      ensures old(produtoService.produtoRepo.FindBySequencialId(id)).None? ==> resultado == ProdutoServico.PRODUTO_NAO_ENCONTRADO
    {
      SucessoSoNasAlteracoes();
      match g
      case ADMINISTRADOR =>
        resultado := produtoService.AlterarProduto(id, f, agora);
      case ESTOQUISTA =>
        resultado := produtoService.AlterarQuantidadeEstoque(id, f.quantidadeEstoque, agora);
    }

    /**
     * `processarAlteracao`: any logged-in staff user of a known group. When
     * the answer mentions "sucesso" the listed images are deleted and the
     * uploads stored; otherwise the edit page is redrawn with the product
     * reloaded, which throws when the product does not exist.
     */
    method ProcessarAlteracao(logado: Option<Usuario>, id: int, nome: string, avaliacao: real, descricaoDetalhada: string,
                              preco: real, quantidadeEstoque: int, envios: seq<Envio>, flags: Option<seq<Option<bool>>>,
                              paraDeletar: seq<string>, agora: Instante)
      returns (r: Checked<Resposta>)
      requires produtoService.imagemRepo.Valid()
      modifies produtoService.produtoRepo, produtoService.imagemRepo
      ensures produtoService.imagemRepo.Valid()
      ensures logado.None? || GetGrupo(logado.value).None? ==>
        && r == Returns(Redirecionar(if logado.None? then PARA_LOGIN else NEGADO))
        && produtoService.produtoRepo.produtos == old(produtoService.produtoRepo.produtos)
        && produtoService.imagemRepo.imagens == old(produtoService.imagemRepo.imagens)
      ensures logado.Some? && GetGrupo(logado.value).Some? ==>
        var g := GetGrupo(logado.value).value;
        var f := Formulario(nome, avaliacao, descricaoDetalhada, preco, quantidadeEstoque);
        var antes := old(produtoService.produtoRepo.produtos);
        if AlteracaoAceita(g, antes, id, f) then
          var fim := ComEnvios(SemAsDeletadas(old(produtoService.imagemRepo.imagens), paraDeletar), id, envios, flags,
                               agora, 0);
          && produtoService.produtoRepo.produtos == ProdutosAlterados(g, antes, id, f, agora)
          && produtoService.imagemRepo.imagens == fim.imagens
          && (fim.excecao.Some? ==> r == Throws(fim.excecao.value))
          && (fim.excecao.None? ==>
                r == Returns(Redirecionar("/produtos?sucesso=" +
                  if g == ADMINISTRADOR then ProdutoServico.PRODUTO_ALTERADO else ProdutoServico.ESTOQUE_ALTERADO)))
        else
          && produtoService.produtoRepo.produtos == antes
          && produtoService.imagemRepo.imagens == old(produtoService.imagemRepo.imagens)
          && r.Returns? == ProdutoPorSequencial(antes, id).Some?
          && (r.Returns? ==> r.value.Exibir? && r.value.vista == VISTA_ALTERAR)
          && (r.Throws? ==> r.exception == NoSuchElement)
    {
      if logado.None? {
        return Returns(Redirecionar(PARA_LOGIN));
      }
      var grupo := GetGrupo(logado.value);
      if grupo.None? {
        return Returns(Redirecionar(NEGADO));
      }
      var resultado := AlterarConformeGrupo(grupo.value, id,
                                            Formulario(nome, avaliacao, descricaoDetalhada, preco, quantidadeEstoque),
                                            agora);
      if MencionaSucesso(resultado) {
        DeletarImagens(paraDeletar);
        var falha := EnviarImagens(id, envios, flags, agora);
        if falha.Some? {
          return Throws(falha.value);
        }
        return Returns(Redirecionar("/produtos?sucesso=" + resultado));
      }
      return RecarregarProduto(produtoService.produtoRepo.FindBySequencialId(id), resultado);
    }

    /** `alterarStatus`: administrators only; the service's answer is reported as success whatever it says. */
    method AlterarStatus(logado: Option<Usuario>, id: int, agora: Instante) returns (r: Resposta)
      modifies produtoService.produtoRepo
      ensures PortaoAdmin(logado, NEGADO_STATUS).Some? ==>
        r == PortaoAdmin(logado, NEGADO_STATUS).value
        && produtoService.produtoRepo.produtos == old(produtoService.produtoRepo.produtos)
      ensures PortaoAdmin(logado, NEGADO_STATUS).None? && old(produtoService.produtoRepo.FindBySequencialId(id)).None? ==>
        r == Redirecionar("/produtos?sucesso=" + ProdutoServico.PRODUTO_NAO_ENCONTRADO)
        && produtoService.produtoRepo.produtos == old(produtoService.produtoRepo.produtos)
      ensures PortaoAdmin(logado, NEGADO_STATUS).None? && old(produtoService.produtoRepo.FindBySequencialId(id)).Some? ==>
        r == Redirecionar("/produtos?sucesso=" + ProdutoServico.STATUS_ALTERADO)
        && produtoService.produtoRepo.produtos == Salvar(old(produtoService.produtoRepo.produtos),
             ProdutoServico.StatusAlternado(old(produtoService.produtoRepo.FindBySequencialId(id)).value, agora), IdProduto)
    {
      var portao := PortaoAdmin(logado, NEGADO_STATUS);
      if portao.Some? {
        return portao.value;
      }
      var resultado := produtoService.AlterarStatus(id, agora);
      return Redirecionar("/produtos?sucesso=" + resultado);
    }

    /** `deletarImagem`: administrators only; the service's answer is reported as success whatever it says. */
    method DeletarImagem(logado: Option<Usuario>, imagemId: string) returns (r: Resposta)
      modifies produtoService.imagemRepo
      ensures PortaoAdmin(logado, NEGADO).Some? ==>
        r == PortaoAdmin(logado, NEGADO).value
        && produtoService.imagemRepo.imagens == old(produtoService.imagemRepo.imagens)
      ensures PortaoAdmin(logado, NEGADO).None? ==>
        && produtoService.imagemRepo.imagens == SemAsDeletadas(old(produtoService.imagemRepo.imagens), [imagemId])
        && r == Redirecionar("/produtos?sucesso=" +
             (if old(produtoService.imagemRepo.FindById(imagemId)).Some? then ProdutoServico.IMAGEM_DELETADA
              else ProdutoServico.IMAGEM_NAO_ENCONTRADA))
    {
      var portao := PortaoAdmin(logado, NEGADO);
      if portao.Some? {
        return portao.value;
      }
      var resultado := produtoService.DeletarImagem(imagemId);
      return Redirecionar("/produtos?sucesso=" + resultado);
    }
  }
}
