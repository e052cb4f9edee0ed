/**
 * The product service: the field checks shared by registration and
 * update, the numbering of new products, the stock-clerk and status
 * updates, and the bookkeeping of product images. The files themselves,
 * the random file names and the clock are inputs.
 */
module ProdutoServico {
  import opened Wrappers
  import opened Text
  import opened Tempo
  import opened Produtos
  import opened Sequencial
  import opened Repositorios

  const NOME_OBRIGATORIO := "Nome do produto é obrigatório"
  const NOME_LONGO := "Nome do produto deve " + "ter no máximo 200 " + "caractere" + "s"
  const AVALIACAO_INVALIDA := "Avaliação deve ser entre 1 e 5"
  const DESCRICAO_OBRIGATORIA := "Descrição detalhada é obrigatória"
  const DESCRICAO_LONGA := "Descrição detalhada deve " + "ter no máximo 2000 caracteres"
  const PRECO_INVALIDO := "Preço deve ser maior que zero"
  const ESTOQUE_INVALIDO := "Quantidade em estoque " + "deve ser maior ou igual a zero"
  const PRODUTO_CADASTRADO := "Produto cadastrado com sucesso"
  const ERRO_CADASTRO := "Erro ao cadastrar produto: "
  const PRODUTO_NAO_ENCONTRADO := "Produto não encontrado"
  const PRODUTO_ALTERADO := "Produto alterado com sucesso"
  const ESTOQUE_ALTERADO := "Quantidade em estoque alterada com sucesso"
  const STATUS_ALTERADO := "Status do produto alterado com sucesso"
  const ARQUIVO_VAZIO := "Arquivo não pode estar vazio"
  const IMAGEM_SALVA := "Imagem salva com sucesso"
  const IMAGEM_NAO_ENCONTRADA := "Imagem não encontrada"
  const IMAGEM_DELETADA := "Imagem deletada com sucesso"
  const PASTA_PUBLICA := "/images/produtos/"

  /** The failure messages of the field checks, in the order the checks run. */
  const MensagensProduto: seq<string> :=
    [NOME_OBRIGATORIO, NOME_LONGO, AVALIACAO_INVALIDA, DESCRICAO_OBRIGATORIA, DESCRICAO_LONGA,
     PRECO_INVALIDO, ESTOQUE_INVALIDO]

  /** The five product fields of the registration and update forms; null where absent. */
  datatype FormProduto = FormProduto(
    nome: Option<string>,
    avaliacao: Option<real>,
    descricaoDetalhada: Option<string>,
    preco: Option<real>,
    quantidadeEstoque: Option<int>)

  // ---------------------------------------------------------------- field checks

  /** Check number `k` of the product form, in the order of `MensagensProduto`. */
  predicate ConfereProduto(f: FormProduto, k: nat) {
    match k
    case 0 => !NullOrBlank(f.nome)
    case 1 => f.nome.Some? && |f.nome.value| <= 200
    case 2 => f.avaliacao.Some? && 0.0 < f.avaliacao.value <= 5.0
    case 3 => !NullOrBlank(f.descricaoDetalhada)
    case 4 => f.descricaoDetalhada.Some? && |f.descricaoDetalhada.value| <= 2000
    case 5 => f.preco.Some? && f.preco.value > 0.0
    case 6 => f.quantidadeEstoque.Some? && f.quantidadeEstoque.value >= 0
    case _ => true
  }

  /** Checks 0..k-1 all pass. */
  predicate ProdutoConfereAte(f: FormProduto, k: nat) {
    k == 0 || (ProdutoConfereAte(f, k - 1) && ConfereProduto(f, k - 1))
  }

  /**
   * The checks at the head of `cadastrarProduto` and `alterarProduto`:
   * null when the form is acceptable, else the first failure's message.
   */
  function ValidarProduto(f: FormProduto): (r: Option<string>)
    ensures r.Some? ==> r.value in MensagensProduto
    ensures r.None? ==>
      f.nome.Some? && f.avaliacao.Some? && f.descricaoDetalhada.Some? && f.preco.Some? && f.quantidadeEstoque.Some?
  {
    if NullOrBlank(f.nome) then Some(NOME_OBRIGATORIO)
    else if |f.nome.value| > 200 then Some(NOME_LONGO)
    else if f.avaliacao.None? || f.avaliacao.value <= 0.0 || f.avaliacao.value > 5.0 then Some(AVALIACAO_INVALIDA)
    else if NullOrBlank(f.descricaoDetalhada) then Some(DESCRICAO_OBRIGATORIA)
    else if |f.descricaoDetalhada.value| > 2000 then Some(DESCRICAO_LONGA)
    else if f.preco.None? || f.preco.value <= 0.0 then Some(PRECO_INVALIDO)
    else if f.quantidadeEstoque.None? || f.quantidadeEstoque.value < 0 then Some(ESTOQUE_INVALIDO)
    else None
  }

  /**
   * The first failing check wins: the answer is the message of check `k`
   * exactly when checks 0..k-1 pass and check `k` fails, and null exactly
   * when all seven pass.
   */
  lemma ProdutoPrimeiraFalha(f: FormProduto)
    ensures forall k :: 0 <= k < |MensagensProduto| ==>
      (ValidarProduto(f) == Some(MensagensProduto[k]) <==> ProdutoConfereAte(f, k) && !ConfereProduto(f, k))
    ensures ValidarProduto(f).None? <==> ProdutoConfereAte(f, |MensagensProduto|)
  {
    var c0, c1, c2, c3 := ConfereProduto(f, 0), ConfereProduto(f, 1), ConfereProduto(f, 2), ConfereProduto(f, 3);
    var c4, c5, c6 := ConfereProduto(f, 4), ConfereProduto(f, 5), ConfereProduto(f, 6);
    assert ProdutoConfereAte(f, 1) == c0;
    assert ProdutoConfereAte(f, 2) == (c0 && c1);
    assert ProdutoConfereAte(f, 3) == (c0 && c1 && c2);
    assert ProdutoConfereAte(f, 4) == (c0 && c1 && c2 && c3);
    assert ProdutoConfereAte(f, 5) == (c0 && c1 && c2 && c3 && c4);
    assert ProdutoConfereAte(f, 6) == (c0 && c1 && c2 && c3 && c4 && c5);
    assert ProdutoConfereAte(f, 7) == (c0 && c1 && c2 && c3 && c4 && c5 && c6);
  }

  /**
   * The rating check is `0 < r <= 5` although its message says "between 1
   * and 5": 0.5 passes, 0 and 5.5 do not.
   */
  lemma AvaliacaoAbaixoDeUm()
    ensures ConfereProduto(FormProduto(None, Some(0.5), None, None, None), 2)
    ensures !ConfereProduto(FormProduto(None, Some(0.0), None, None, None), 2)
    ensures !ConfereProduto(FormProduto(None, Some(5.5), None, None, None), 2)
  {
  }

  // ---------------------------------------------------------------- numbering

  /**
   * `gerarProximoSequencialId`: 1 for an empty catalogue, else the top
   * product's number + 1. The descending sort puts products without a
   * number last, so the top product lacks one only when every product
   * does, and then unboxing its null number throws (null here).
   */
  function ProximoSequencialId(produtos: seq<Produto>): (r: Option<int>)
    ensures produtos == [] ==> r == Some(1)
    ensures r.None? <==> produtos != [] && forall p :: p in produtos ==> p.sequencialId.None?
    ensures r.Some? ==> forall p :: p in produtos && p.sequencialId.Some? ==> p.sequencialId.value < r.value
    ensures r.Some? && produtos != [] ==> exists p :: p in produtos && p.sequencialId == Some(r.value - 1)
  {
    var ids := seq(|produtos|, i requires 0 <= i < |produtos| => produtos[i].sequencialId);
    forall p | p in produtos
      ensures p.sequencialId in ids
    {
      var i :| 0 <= i < |produtos| && produtos[i] == p;
      assert ids[i] == p.sequencialId;
    }
    if produtos == [] then Some(1)
    else match Maior(ids)
      case None => None
      case Some(m) => Some(m + 1)
  }

  /**
   * Every document of `Salvar(s, x, id)` is `x` or came from `s`.
   */
  lemma SalvarSoAcrescentaX<T>(s: seq<T>, x: T, id: T -> string)
    ensures forall y :: y in Salvar(s, x, id) ==> y == x || y in s
    ensures x in Salvar(s, x, id)
  {
    match PosicaoDoId(s, id(x), id)
    case None =>
    case Some(i) =>
      var r := Salvar(s, x, id);
      assert r == s[i := x];
      assert r[i] == x;
      forall y | y in r
        ensures y == x || y in s
      {
        var k :| 0 <= k < |r| && r[k] == y;
        if k != i { assert y == s[k]; }
      }
  }

  /**
   * A product saved under a number no other product carries is what a
   * lookup by that number finds afterwards: the number the service hands
   * out identifies the new product.
   */
  lemma NumeroNovoEncontrado(produtos: seq<Produto>, p: Produto, n: int)
    requires p.sequencialId == Some(n)
    requires forall q :: q in produtos ==> q.sequencialId != Some(n)
    ensures ProdutoPorSequencial(Salvar(produtos, p, IdProduto), n) == Some(p)
  {
    SalvarSoAcrescentaX(produtos, p, IdProduto);
  }

  /** A newly registered product is what a lookup by the number it was given finds. */
  lemma CadastradoEncontrado(produtos: seq<Produto>, p: Produto)
    requires ProximoSequencialId(produtos).Some? && p.sequencialId == ProximoSequencialId(produtos)
    ensures ProdutoPorSequencial(Salvar(produtos, p, IdProduto), ProximoSequencialId(produtos).value) == Some(p)
  {
    NumeroNovoEncontrado(produtos, p, ProximoSequencialId(produtos).value);
  }

  // ---------------------------------------------------------------- updates

  /**
   * What `alterarProduto` writes: the five form fields and the change
   * time; the store id, the number, the active flag and the creation time
   * are kept.
   */
  function Alterado(p: Produto, nome: string, avaliacao: real, descricaoDetalhada: string, preco: real,
                    quantidadeEstoque: int, agora: Instante): (q: Produto)
    ensures q.id == p.id && q.sequencialId == p.sequencialId && q.status == p.status && q.dataCriacao == p.dataCriacao
    ensures q.nome == nome && q.avaliacao == avaliacao && q.descricaoDetalhada == descricaoDetalhada
    ensures q.preco == preco && q.quantidadeEstoque == quantidadeEstoque && q.dataUltimaAlteracao == agora
  {
    p.(nome := nome, avaliacao := avaliacao, descricaoDetalhada := descricaoDetalhada, preco := preco,
       quantidadeEstoque := quantidadeEstoque, dataUltimaAlteracao := agora)
  }

  /** What `alterarQuantidadeEstoque` writes: the stock and the change time, nothing else. */
  function EstoqueAlterado(p: Produto, quantidade: int, agora: Instante): (q: Produto)
    ensures q == Alterado(p, p.nome, p.avaliacao, p.descricaoDetalhada, p.preco, quantidade, agora)
  {
    p.(quantidadeEstoque := quantidade, dataUltimaAlteracao := agora)
  }

  /** What `alterarStatus` writes: the negated active flag and the change time. */
  function StatusAlternado(p: Produto, agora: Instante): (q: Produto)
    ensures q.status != p.status
    ensures q.(status := p.status, dataUltimaAlteracao := p.dataUltimaAlteracao) == p
  {
    p.(status := !p.status, dataUltimaAlteracao := agora)
  }

  /** Toggling twice restores the product, apart from the change time. */
  lemma StatusAlternadoDuasVezes(p: Produto, t1: Instante, t2: Instante)
    ensures StatusAlternado(StatusAlternado(p, t1), t2) == p.(dataUltimaAlteracao := t2)
  {
  }

  // ---------------------------------------------------------------- images

  /** An uploaded file: whether it has no content, and the client's file name (possibly null). */
  datatype Arquivo = Arquivo(vazio: bool, nomeOriginal: Option<string>)

  /** `lastIndexOf(c)`: the last position of `c` in `s`, or -1. */
  function UltimaPosicao(s: string, c: char): (r: int)
    ensures -1 <= r < |s|
    ensures r >= 0 ==> s[r] == c && forall j :: r < j < |s| ==> s[j] != c
    ensures r == -1 <==> c !in s
  {
    if s == [] then -1
    else if s[|s| - 1] == c then |s| - 1
    else UltimaPosicao(s[..|s| - 1], c)
  }

  /**
   * The extension kept for the stored file: the name from its last dot
   * on. A null name throws a null-pointer exception, and a name without a
   * dot makes `substring(-1)` throw.
   */
  function Extensao(nome: Option<string>): (r: Checked<string>)
    ensures r.Throws? <==> nome.None? || '.' !in nome.value
    ensures r.Returns? ==>
      && |r.value| >= 1 && r.value[0] == '.' && '.' !in r.value[1..]
      && exists k :: 0 <= k <= |nome.value| && nome.value[k..] == r.value
  {
    if nome.None? then Throws(NullPointer)
    else
      var k := UltimaPosicao(nome.value, '.');
      if k < 0 then Throws(IndexOutOfBounds)
      else Returns(nome.value[k..])
  }

  /** The images of product `produtoSequencialId` with their principal flag cleared; the rest as they were. */
  function SemPrincipal(s: seq<ProdutoImagem>, produtoSequencialId: int): (r: seq<ProdutoImagem>)
    ensures |r| == |s|
    ensures forall i :: 0 <= i < |s| ==> r[i].id == s[i].id && r[i].produtoSequencialId == s[i].produtoSequencialId
    ensures forall i :: 0 <= i < |s| && s[i].produtoSequencialId == produtoSequencialId ==>
      r[i] == s[i].(imagemPrincipal := false)
    ensures forall i :: 0 <= i < |s| && s[i].produtoSequencialId != produtoSequencialId ==> r[i] == s[i]
  {
    seq(|s|, i requires 0 <= i < |s| =>
      if s[i].produtoSequencialId == produtoSequencialId then s[i].(imagemPrincipal := false) else s[i])
  }

  /** The images whose identifier is in `ids` with their principal flag cleared. */
  function Limpas(s: seq<ProdutoImagem>, ids: set<string>): (r: seq<ProdutoImagem>)
    ensures |r| == |s| && forall i :: 0 <= i < |s| ==> r[i].id == s[i].id
  {
    seq(|s|, i requires 0 <= i < |s| => if s[i].id in ids then s[i].(imagemPrincipal := false) else s[i])
  }

  /** Saving one more cleared image of the store clears one more identifier. */
  lemma LimpasPasso(s: seq<ProdutoImagem>, ids: set<string>, x: ProdutoImagem)
    requires IdsDistintos(s, IdImagem) && x in s
    ensures Salvar(Limpas(s, ids), x.(imagemPrincipal := false), IdImagem) == Limpas(s, ids + {x.id})
  {
    var j :| 0 <= j < |s| && s[j] == x;
    LimpasSalvaNoLugar(s, ids, j);
    LimpasUmaMais(s, ids, j);
  }

  lemma LimpasSalvaNoLugar(s: seq<ProdutoImagem>, ids: set<string>, j: nat)
    requires IdsDistintos(s, IdImagem) && j < |s|
    ensures Salvar(Limpas(s, ids), s[j].(imagemPrincipal := false), IdImagem)
         == Limpas(s, ids)[j := s[j].(imagemPrincipal := false)]
  {
    var t := Limpas(s, ids);
    assert forall i :: 0 <= i < j ==> IdImagem(t[i]) != IdImagem(s[j]);
  }

  lemma LimpasUmaMais(s: seq<ProdutoImagem>, ids: set<string>, j: nat)
    requires IdsDistintos(s, IdImagem) && j < |s|
    ensures Limpas(s, ids)[j := s[j].(imagemPrincipal := false)] == Limpas(s, ids + {s[j].id})
  {
    var t, u := Limpas(s, ids), Limpas(s, ids + {s[j].id});
    forall i | 0 <= i < |s|
      ensures t[j := s[j].(imagemPrincipal := false)][i] == u[i]
    {
      if i != j {
        assert IdImagem(s[i]) != IdImagem(s[j]);
      }
    }
  }

  /** The identifiers of the first `k` images of `s`. */
  ghost function IdsAte(s: seq<ProdutoImagem>, k: nat): (r: set<string>)
    requires k <= |s|
    ensures forall i :: 0 <= i < k ==> s[i].id in r
  {
    if k == 0 then {} else IdsAte(s, k - 1) + {s[k - 1].id}
  }

  lemma {:induction false} IdsAteSaoDeImagens(s: seq<ProdutoImagem>, k: nat)
    requires k <= |s|
    ensures IdsAte(s, k) == set x | x in s[..k] :: x.id
  {
    if k > 0 {
      IdsAteSaoDeImagens(s, k - 1);
      assert s[..k] == s[..k - 1] + [s[k - 1]];
    }
  }

  /** Clearing the identifiers of a listing of a product's images is clearing by product. */
  lemma LimpasDoProduto(s: seq<ProdutoImagem>, existentes: seq<ProdutoImagem>, produtoSequencialId: int)
    requires IdsDistintos(s, IdImagem)
    requires forall x :: x in existentes <==> x in s && x.produtoSequencialId == produtoSequencialId
    ensures Limpas(s, IdsAte(existentes, |existentes|)) == SemPrincipal(s, produtoSequencialId)
  {
    IdsAteSaoDeImagens(existentes, |existentes|);
    assert existentes[..|existentes|] == existentes;
    assert IdsAte(existentes, |existentes|)
        == set x | x in s && x.produtoSequencialId == produtoSequencialId :: x.id;
    LimpasPorProduto(s, produtoSequencialId);
  }

  /** Clearing by the identifiers of a product's images is clearing by product. */
  lemma LimpasPorProduto(s: seq<ProdutoImagem>, produtoSequencialId: int)
    requires IdsDistintos(s, IdImagem)
    ensures Limpas(s, set x | x in s && x.produtoSequencialId == produtoSequencialId :: x.id)
         == SemPrincipal(s, produtoSequencialId)
  {
    var ids := set x | x in s && x.produtoSequencialId == produtoSequencialId :: x.id;
    forall i | 0 <= i < |s|
      ensures s[i].id in ids <==> s[i].produtoSequencialId == produtoSequencialId
    {
      if s[i].id in ids {
        var x :| x in s && x.produtoSequencialId == produtoSequencialId && x.id == s[i].id;
        var j :| 0 <= j < |s| && s[j] == x;
        assert !(i < j || j < i);
      }
    }
  }

  /**
   * After a principal upload the new image is the only principal image of
   * its product; the product's older images lose the flag and other
   * products' images are untouched.
   */
  lemma UmaSoPrincipal(s: seq<ProdutoImagem>, nova: ProdutoImagem)
    requires forall x :: x in s ==> x.id != nova.id
    requires nova.imagemPrincipal
    ensures var r := Salvar(SemPrincipal(s, nova.produtoSequencialId), nova, IdImagem);
      && r == SemPrincipal(s, nova.produtoSequencialId) + [nova]
      && (forall i :: 0 <= i < |r| && r[i].produtoSequencialId == nova.produtoSequencialId && r[i].imagemPrincipal ==>
            i == |s|)
      && (forall i :: 0 <= i < |s| && s[i].produtoSequencialId != nova.produtoSequencialId ==> r[i] == s[i])
  {
    var t := SemPrincipal(s, nova.produtoSequencialId);
    assert forall j :: 0 <= j < |t| ==> IdImagem(t[j]) != IdImagem(nova) by {
      forall j | 0 <= j < |t| ensures IdImagem(t[j]) != IdImagem(nova) {
        assert s[j] in s;
      }
    }
  }

  /** A non-principal upload leaves every existing flag as it was. */
  lemma FlagsIntactos(s: seq<ProdutoImagem>, nova: ProdutoImagem)
    requires forall x :: x in s ==> x.id != nova.id
    ensures Salvar(s, nova, IdImagem) == s + [nova]
  {
    assert forall j :: 0 <= j < |s| ==> IdImagem(s[j]) != IdImagem(nova) by {
      forall j | 0 <= j < |s| ensures IdImagem(s[j]) != IdImagem(nova) {
        assert s[j] in s;
      }
    }
  }

  /**
   * The record `salvarImagem` stores: the original name, the saved name
   * (random part + extension), its public path and the requested flag.
   */
  function ImagemSalva(novoId: string, produtoSequencialId: int, nomeOriginal: string, nomeSalvo: string,
                       principal: bool, agora: Instante): (i: ProdutoImagem)
    ensures i.id == novoId && i.produtoSequencialId == produtoSequencialId && i.imagemPrincipal == principal
    ensures i.nomeArquivoOriginal == nomeOriginal && i.nomeArquivoSalvo == nomeSalvo
    ensures i.caminhoArquivo == PASTA_PUBLICA + nomeSalvo && i.dataUpload == agora
  {
    NovaImagem(novoId, produtoSequencialId, nomeOriginal, nomeSalvo, PASTA_PUBLICA + nomeSalvo, agora)
      .(imagemPrincipal := principal)
  }

  // ---------------------------------------------------------------- the service

  class ProdutoService {
    const produtoRepo: ProdutoRepository
    const imagemRepo: ProdutoImagemRepository

    constructor (produtoRepo: ProdutoRepository, imagemRepo: ProdutoImagemRepository)
      ensures this.produtoRepo == produtoRepo && this.imagemRepo == imagemRepo
    {
      this.produtoRepo := produtoRepo;
      this.imagemRepo := imagemRepo;
    }

    /**
     * `cadastrarProduto`: the field checks, then a new active product under
     * the next number. When the catalogue has products but none with a
     * number, the numbering throws and the caught exception's message
     * (`excecao`) is reported; nothing is saved then.
     */
    method CadastrarProduto(f: FormProduto, novoId: string, agora: Instante, excecao: string) returns (r: string)
      modifies produtoRepo
      ensures ValidarProduto(f).Some? ==> r == ValidarProduto(f).value && produtoRepo.produtos == old(produtoRepo.produtos)
      ensures ValidarProduto(f).None? && ProximoSequencialId(old(produtoRepo.produtos)).None? ==>
        r == ERRO_CADASTRO + excecao && produtoRepo.produtos == old(produtoRepo.produtos)
      ensures r == PRODUTO_CADASTRADO <==> ValidarProduto(f).None? && ProximoSequencialId(old(produtoRepo.produtos)).Some?
      ensures r == PRODUTO_CADASTRADO ==>
        produtoRepo.produtos == Salvar(old(produtoRepo.produtos),
          Novo(novoId, f.nome.value, f.avaliacao.value, f.descricaoDetalhada.value, f.preco.value,
               f.quantidadeEstoque.value, agora).(sequencialId := ProximoSequencialId(old(produtoRepo.produtos))),
          IdProduto)
    {
      var erro := ValidarProduto(f);
      if erro.Some? {
        return erro.value;
      }
      var proximo := ProximoSequencialId(produtoRepo.produtos);
      if proximo.None? {
        assert (ERRO_CADASTRO + excecao)[0] != PRODUTO_CADASTRADO[0];
        return ERRO_CADASTRO + excecao;
      }
      var produto := Novo(novoId, f.nome.value, f.avaliacao.value, f.descricaoDetalhada.value, f.preco.value,
                          f.quantidadeEstoque.value, agora);
      produto := produto.(sequencialId := proximo);
      produtoRepo.Save(produto);
      return PRODUTO_CADASTRADO;
    }

    /** `alterarProduto`: an unknown number is reported before the fields are checked. */
    method AlterarProduto(sequencialId: int, f: FormProduto, agora: Instante) returns (r: string)
      modifies produtoRepo
      ensures old(produtoRepo.FindBySequencialId(sequencialId)).None? ==>
        r == PRODUTO_NAO_ENCONTRADO && produtoRepo.produtos == old(produtoRepo.produtos)
      ensures old(produtoRepo.FindBySequencialId(sequencialId)).Some? && ValidarProduto(f).Some? ==>
        r == ValidarProduto(f).value && produtoRepo.produtos == old(produtoRepo.produtos)
      ensures r == PRODUTO_ALTERADO <==> old(produtoRepo.FindBySequencialId(sequencialId)).Some? && ValidarProduto(f).None?
      ensures r == PRODUTO_ALTERADO ==>
        produtoRepo.produtos == Salvar(old(produtoRepo.produtos),
          Alterado(old(produtoRepo.FindBySequencialId(sequencialId)).value, f.nome.value, f.avaliacao.value,
                   f.descricaoDetalhada.value, f.preco.value, f.quantidadeEstoque.value, agora),
          IdProduto)
    {
      var encontrado := produtoRepo.FindBySequencialId(sequencialId);
      if encontrado.None? {
        return PRODUTO_NAO_ENCONTRADO;
      }
      var erro := ValidarProduto(f);
      if erro.Some? {
        return erro.value;
      }
      produtoRepo.Save(Alterado(encontrado.value, f.nome.value, f.avaliacao.value, f.descricaoDetalhada.value,
                                f.preco.value, f.quantidadeEstoque.value, agora));
      return PRODUTO_ALTERADO;
    }

    /** `alterarQuantidadeEstoque`: unknown number first, then a null or negative quantity. */
    method AlterarQuantidadeEstoque(sequencialId: int, novaQuantidade: Option<int>, agora: Instante) returns (r: string)
      modifies produtoRepo
      ensures old(produtoRepo.FindBySequencialId(sequencialId)).None? ==> r == PRODUTO_NAO_ENCONTRADO
      ensures old(produtoRepo.FindBySequencialId(sequencialId)).Some? && (novaQuantidade.None? || novaQuantidade.value < 0) ==>
        r == ESTOQUE_INVALIDO
      ensures r == ESTOQUE_ALTERADO <==>
        old(produtoRepo.FindBySequencialId(sequencialId)).Some? && novaQuantidade.Some? && novaQuantidade.value >= 0
      ensures r == ESTOQUE_ALTERADO ==>
        produtoRepo.produtos == Salvar(old(produtoRepo.produtos),
          EstoqueAlterado(old(produtoRepo.FindBySequencialId(sequencialId)).value, novaQuantidade.value, agora), IdProduto)
      ensures r != ESTOQUE_ALTERADO ==> produtoRepo.produtos == old(produtoRepo.produtos)
    {
      var encontrado := produtoRepo.FindBySequencialId(sequencialId);
      if encontrado.None? {
        return PRODUTO_NAO_ENCONTRADO;
      }
      if novaQuantidade.None? || novaQuantidade.value < 0 {
        return ESTOQUE_INVALIDO;
      }
      produtoRepo.Save(EstoqueAlterado(encontrado.value, novaQuantidade.value, agora));
      return ESTOQUE_ALTERADO;
    }

    /** `alterarStatus`: negates the active flag of the product with that number. */
    method AlterarStatus(sequencialId: int, agora: Instante) returns (r: string)
      modifies produtoRepo
      ensures old(produtoRepo.FindBySequencialId(sequencialId)).None? ==>
        r == PRODUTO_NAO_ENCONTRADO && produtoRepo.produtos == old(produtoRepo.produtos)
      ensures old(produtoRepo.FindBySequencialId(sequencialId)).Some? ==>
        r == STATUS_ALTERADO
        && produtoRepo.produtos == Salvar(old(produtoRepo.produtos),
             StatusAlternado(old(produtoRepo.FindBySequencialId(sequencialId)).value, agora), IdProduto)
    {
      var encontrado := produtoRepo.FindBySequencialId(sequencialId);
      if encontrado.None? {
        return PRODUTO_NAO_ENCONTRADO;
      }
      produtoRepo.Save(StatusAlternado(encontrado.value, agora));
      return STATUS_ALTERADO;
    }

    /**
     * The loop of `salvarImagem`: every image of the product, as listed by
     * the store, is saved back with its principal flag cleared.
     */
    method DesmarcarPrincipais(produtoSequencialId: int)
      requires imagemRepo.Valid()
      modifies imagemRepo
      ensures imagemRepo.Valid()
      ensures imagemRepo.imagens == SemPrincipal(old(imagemRepo.imagens), produtoSequencialId)
    {
      ghost var inicial := imagemRepo.imagens;
      var existentes := imagemRepo.FindByProdutoSequencialId(produtoSequencialId);
      var k := 0;
      while k < |existentes|
        invariant 0 <= k <= |existentes|
        invariant imagemRepo.imagens == Limpas(inicial, IdsAte(existentes, k))
        invariant imagemRepo.Valid() && IdsDistintos(inicial, IdImagem)
      {
        DesmarcarUma(inicial, existentes, k);
        k := k + 1;
      }
      LimpasDoProduto(inicial, existentes, produtoSequencialId);
    }

    /** One turn of that loop: the `k`-th listed image is saved back without the flag. */
    method DesmarcarUma(ghost inicial: seq<ProdutoImagem>, existentes: seq<ProdutoImagem>, k: nat)
      requires k < |existentes| && existentes[k] in inicial && IdsDistintos(inicial, IdImagem)
      requires imagemRepo.Valid() && imagemRepo.imagens == Limpas(inicial, IdsAte(existentes, k))
      modifies imagemRepo
      ensures imagemRepo.Valid() && imagemRepo.imagens == Limpas(inicial, IdsAte(existentes, k + 1))
    {
      var img := existentes[k];
      LimpasPasso(inicial, IdsAte(existentes, k), img);
      imagemRepo.Save(img.(imagemPrincipal := false));
    }

    /**
     * `salvarImagem`, the bookkeeping only: an empty file is refused; a
     * null name, a name without a dot or a null flag let an exception
     * escape; otherwise, for a principal upload, the product's images lose
     * the flag first, and the new record is stored with the requested flag.
     * `aleatorio` is the random part of the saved name.
     */
    method SalvarImagem(produtoSequencialId: int, arquivo: Arquivo, imagemPrincipal: Option<bool>,
                        aleatorio: string, novoId: string, agora: Instante) returns (r: Checked<string>)
      requires imagemRepo.Valid()
      modifies imagemRepo
      ensures imagemRepo.Valid()
      ensures arquivo.vazio ==> r == Returns(ARQUIVO_VAZIO) && imagemRepo.imagens == old(imagemRepo.imagens)
      ensures !arquivo.vazio && Extensao(arquivo.nomeOriginal).Throws? ==>
        r == Throws(Extensao(arquivo.nomeOriginal).exception) && imagemRepo.imagens == old(imagemRepo.imagens)
      ensures !arquivo.vazio && Extensao(arquivo.nomeOriginal).Returns? && imagemPrincipal.None? ==>
        r == Throws(NullPointer) && imagemRepo.imagens == old(imagemRepo.imagens)
      ensures r == Returns(IMAGEM_SALVA) <==>
        !arquivo.vazio && Extensao(arquivo.nomeOriginal).Returns? && imagemPrincipal.Some?
      ensures r == Returns(IMAGEM_SALVA) ==>
        var nova := ImagemSalva(novoId, produtoSequencialId, arquivo.nomeOriginal.value,
                                aleatorio + Extensao(arquivo.nomeOriginal).value, imagemPrincipal.value, agora);
        imagemRepo.imagens == Salvar(if imagemPrincipal.value then SemPrincipal(old(imagemRepo.imagens), produtoSequencialId)
                                     else old(imagemRepo.imagens), nova, IdImagem)
    {
      if arquivo.vazio {
        return Returns(ARQUIVO_VAZIO);
      }
      var extensao := Extensao(arquivo.nomeOriginal);
      if extensao.Throws? {
        return Throws(extensao.exception);
      }
      var nomeSalvo := aleatorio + extensao.value;
      if imagemPrincipal.None? {
        return Throws(NullPointer);
      }
      if imagemPrincipal.value {
        DesmarcarPrincipais(produtoSequencialId);
      }
      var nova := ImagemSalva(novoId, produtoSequencialId, arquivo.nomeOriginal.value, nomeSalvo,
                              imagemPrincipal.value, agora);
      imagemRepo.Save(nova);
      return Returns(IMAGEM_SALVA);
    }

    /** `deletarImagem`: an unknown identifier deletes nothing. */
    method DeletarImagem(imagemId: string) returns (r: string)
      modifies imagemRepo
      ensures old(imagemRepo.FindById(imagemId)).None? ==>
        r == IMAGEM_NAO_ENCONTRADA && imagemRepo.imagens == old(imagemRepo.imagens)
      ensures old(imagemRepo.FindById(imagemId)).Some? ==>
        r == IMAGEM_DELETADA && imagemRepo.imagens == Remover(old(imagemRepo.imagens), imagemId, IdImagem)
      ensures imagemRepo.FindById(imagemId).None?
    {
      var encontrada := imagemRepo.FindById(imagemId);
      if encontrada.None? {
        return IMAGEM_NAO_ENCONTRADA;
      }
      imagemRepo.DeleteById(encontrada.value.id);
      return IMAGEM_DELETADA;
    }
  }
}
