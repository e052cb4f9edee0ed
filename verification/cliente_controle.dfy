/**
 * The customer side of the web controller: log-in and log-out, the
 * shipping fee simulated from the postal code, and checkout as a session
 * state machine (start → delivery address → payment → summary → finish),
 * plus the ownership check on an order's detail page.
 */
module ClienteControle {
  import opened Wrappers
  import opened Text
  import opened Tempo
  import opened Enderecos
  import ViaCep
  import opened Clientes
  import opened Pedidos
  import opened Produtos
  import opened Repositorios
  import opened Sessoes
  import opened PedidoServico
  import ClienteServico

  const PARA_LOGIN := "/login"
  const PARA_PERFIL := "/cliente/perfil"
  const PARA_ENDERECO := "/checkout/endereco"
  const PARA_PAGAMENTO := "/checkout/pagamento"
  const PARA_RESUMO := "/checkout/resumo"
  const PARA_CARRINHO_VAZIO := "/loja/carrinho?erro=Carrinho vazio"
  const PARA_LOJA_APOS_SAIR := "/loja?mensagem=Sessão encerrada com sucesso"
  const PARA_PEDIDO_NAO_ENCONTRADO := "/cliente/meus-pedidos?erro=Pedido não encontrado"
  const PARA_ENDERECOS := "/cliente/enderecos"

  const VISTA_LOGIN := "cliente/login"
  const VISTA_ENDERECO := "checkout/escolher-endereco"
  const VISTA_PAGAMENTO := "checkout/escolher-pagamento"
  const VISTA_RESUMO := "checkout/resumo"
  const VISTA_CONFIRMADO := "checkout/pedido-confirmado"
  const VISTA_DETALHES := "cliente/detalhes-pedido"
  const VISTA_ALTERAR_DADOS := "cliente/alterar-dados"
  const VISTA_ADICIONAR_ENDERECO := "cliente/adicionar-endereco"
  const VISTA_ADICIONAR_ENDERECO_CHECKOUT := "checkout/adicionar-endereco"

  const LOGIN_INVALIDO := "Email ou senha inválidos, ou cliente inativo"
  const ENDERECO_INVALIDO := "Endereço inválido"
  const CARTAO_INCOMPLETO := "Preencha todos os dados do cartão"

  // ---------------------------------------------------------------- shipping by postal code

  const PREFIXOS_SP: seq<string> := ["01", "02", "03", "04", "05", "06", "07", "08", "09"]
  const PREFIXOS_RJ: seq<string> := ["20", "21", "22", "23", "24", "25", "26", "27", "28", "29"]
  const FRETE_SP: real := 15.0
  const FRETE_RJ: real := 25.0
  const FRETE_OUTROS: real := 35.0
  /** The fee checkout charges when the session holds none. */
  const FRETE_PADRAO_CHECKOUT: real := 25.0

  /** `calcularFretePorCEP`: a fee from the region the first two digits name. */
  function CalcularFretePorCep(cep: string): (frete: real)
    ensures frete == FRETE_SP || frete == FRETE_RJ || frete == FRETE_OUTROS
  {
    var limpo := StripNonDigits(cep);
    if exists p | p in PREFIXOS_SP :: StartsWith(limpo, p) then FRETE_SP
    else if exists p | p in PREFIXOS_RJ :: StartsWith(limpo, p) then FRETE_RJ
    else FRETE_OUTROS
  }

  /**
   * Only the first two digits count: "0" followed by a non-zero digit is
   * São Paulo, "2" followed by any digit is Rio de Janeiro, and everything
   * else (including "00", "1x" and fewer than two digits) pays the top fee.
   */
  lemma FretePorRegiao(cep: string)
    ensures var d := StripNonDigits(cep);
      && (CalcularFretePorCep(cep) == FRETE_SP <==> |d| >= 2 && d[0] == '0' && d[1] != '0')
      && (CalcularFretePorCep(cep) == FRETE_RJ <==> |d| >= 2 && d[0] == '2')
      && (CalcularFretePorCep(cep) == FRETE_OUTROS <==> !(|d| >= 2 && (d[0] == '2' || (d[0] == '0' && d[1] != '0'))))
  {
    var d := StripNonDigits(cep);
    ComecaComTabela(d, PREFIXOS_SP);
    ComecaComTabela(d, PREFIXOS_RJ);
    if |d| >= 2 {
      TabelaSP(d[..2]);
      TabelaRJ(d[..2]);
    }
  }

  /** A table of two-digit prefixes starts `d` exactly when `d`'s first two characters are in it. */
  lemma ComecaComTabela(d: string, tabela: seq<string>)
    requires forall p :: p in tabela ==> |p| == 2
    ensures (exists p | p in tabela :: StartsWith(d, p)) <==> |d| >= 2 && d[..2] in tabela
  {
  }

  lemma TabelaSP(h: string)
    requires |h| == 2 && IsDigit(h[0]) && IsDigit(h[1])
    ensures h in PREFIXOS_SP <==> h[0] == '0' && h[1] != '0'
  {
    if h[0] == '0' && h[1] != '0' {
      assert h == ['0', h[1]];
    }
  }

  lemma TabelaRJ(h: string)
    requires |h| == 2 && IsDigit(h[0]) && IsDigit(h[1])
    ensures h in PREFIXOS_RJ <==> h[0] == '2'
  {
    if h[0] == '2' {
      assert h == ['2', h[1]];
    }
  }

  /** Punctuation is ignored: the fee of a postal code is that of its digits. */
  lemma FreteIgnoraFormatacao(cep: string)
    ensures CalcularFretePorCep(cep) == CalcularFretePorCep(StripNonDigits(cep))
    ensures CalcularFretePorCep("") == FRETE_OUTROS
  {
    StripKeepsDigits(StripNonDigits(cep));
  }

  // ---------------------------------------------------------------- checkout steps

  /** The cart attribute is null or empty. */
  predicate CarrinhoVazio(carrinho: Option<map<int, int>>) {
    carrinho.None? || carrinho.value == map[]
  }

  /** A payment choice as `processarFormaPagamento` stores it: boleto without card data, or a card that passes validation. */
  predicate PagamentoGuardado(forma: Option<string>, dados: Option<DadosCartao>) {
    (forma == Some("BOLETO") && dados.None?)
    || (forma == Some("CARTAO") && dados.Some? && ValidarDadosCartao(dados.value).None?)
  }

  /** What `resumoPedido` answers: the first missing step, checked as login, cart, address, payment, else the page. */
  function RespostaResumo(logado: bool, carrinho: Option<map<int, int>>, endereco: Option<Endereco>,
                          forma: Option<string>): (r: Resposta)
    ensures r.Exibir? <==> logado && !CarrinhoVazio(carrinho) && endereco.Some? && forma.Some?
    ensures r.Redirecionar? ==> r.destino in [PARA_LOGIN, PARA_CARRINHO_VAZIO, PARA_ENDERECO, PARA_PAGAMENTO]
  {
    if !logado then Redirecionar(PARA_LOGIN)
    else if CarrinhoVazio(carrinho) then Redirecionar(PARA_CARRINHO_VAZIO)
    else if endereco.None? then Redirecionar(PARA_ENDERECO)
    else if forma.None? then Redirecionar(PARA_PAGAMENTO)
    else Exibir(VISTA_RESUMO, None)
  }

  /**
   * A session that reaches the summary page with a payment stored by the
   * payment step passes every guard of `criarPedido` for an existing
   * customer: from there the order can fail only for lack of stock.
   */
  lemma ResumoPassaGuardas(carrinho: Option<map<int, int>>, endereco: Option<Endereco>, forma: Option<string>,
                           dados: Option<DadosCartao>)
    requires RespostaResumo(true, carrinho, endereco, forma).Exibir?
    requires PagamentoGuardado(forma, dados)
    ensures Guardas(carrinho, true, endereco, forma, dados).None?
  {
  }

  /** A view shown with `erro` added to its model; a redirect is unaffected. */
  function ComErro(r: Resposta, erro: string): (s: Resposta)
    ensures s.Exibir? <==> r.Exibir?
    ensures s.Exibir? ==> s.vista == r.vista && s.erro == Some(erro)
    ensures s.Redirecionar? ==> s == r
  {
    match r
    case Redirecionar(_) => r
    case Exibir(vista, _) => Exibir(vista, Some(erro))
  }

  /** The money shown on the summary page. */
  datatype Valores = Valores(subtotal: real, frete: real, total: real)

  /** What the confirmation page shows: the number of the customer's latest order and the total paid. */
  datatype Confirmacao = Confirmacao(numeroPedido: Option<int>, total: real)

  /** The answer counts as success for `finalizarPedido`: it contains "sucesso". */
  predicate ResultadoSucesso(r: string) {
    Contains(r, "sucesso")
  }

  /** The intended test: the answer is the one `criarPedido` gives after saving the order. */
  predicate PedidoConfirmado(r: string) {
    r == PEDIDO_CRIADO
  }

  /** `criarPedido` would save an order: every guard passes and no product is short of stock. */
  predicate PedidoPossivel(produtos: seq<Produto>, clienteExiste: bool, carrinho: Option<map<int, int>>,
                           endereco: Option<Endereco>, forma: Option<string>, dados: Option<DadosCartao>) {
    Guardas(carrinho, clienteExiste, endereco, forma, dados).None? && !FaltaEstoque(produtos, carrinho.value)
  }

  /** A message lacking one of the letters of "sucesso" does not count as success. */
  lemma SemLetraSemSucesso(m: string, c: char)
    requires c in "sucesso" && c !in m
    ensures !ResultadoSucesso(m)
  {
    NotContainsMissingChar(m, "sucesso", c);
  }

  // One lemma per message: each literal is expanded in a proof of its own.

  lemma NumeroInvalidoSemSucesso()
    ensures !ResultadoSucesso(NUMERO_INVALIDO)
  {
    SemLetraSemSucesso(NUMERO_INVALIDO, 'u');
  }

  lemma CodigoInvalidoSemSucesso()
    ensures !ResultadoSucesso(CODIGO_INVALIDO)
  {
    SemLetraSemSucesso(CODIGO_INVALIDO, 'u');
  }

  lemma NomeObrigatorioSemSucesso()
    ensures !ResultadoSucesso(PedidoServico.NOME_OBRIGATORIO)
  {
    SemLetraSemSucesso(PedidoServico.NOME_OBRIGATORIO, 'u');
  }

  lemma VencimentoInvalidoSemSucesso()
    ensures !ResultadoSucesso(VENCIMENTO_INVALIDO)
  {
    SemLetraSemSucesso(VENCIMENTO_INVALIDO, 'u');
  }

  lemma ParcelasInvalidasSemSucesso()
    ensures !ResultadoSucesso(PARCELAS_INVALIDAS)
  {
    SemLetraSemSucesso(PARCELAS_INVALIDAS, 'o');
  }

  lemma CarrinhoVazioSemSucesso()
    ensures !ResultadoSucesso(CARRINHO_VAZIO)
  {
    SemLetraSemSucesso(CARRINHO_VAZIO, 'u');
  }

  lemma ClienteNaoEncontradoSemSucesso()
    ensures !ResultadoSucesso(CLIENTE_NAO_ENCONTRADO)
  {
    SemLetraSemSucesso(CLIENTE_NAO_ENCONTRADO, 'u');
  }

  lemma EnderecoObrigatorioSemSucesso()
    ensures !ResultadoSucesso(ENDERECO_OBRIGATORIO)
  {
    SemLetraSemSucesso(ENDERECO_OBRIGATORIO, 'u');
  }

  lemma PagamentoInvalidoSemSucesso()
    ensures !ResultadoSucesso(PAGAMENTO_INVALIDO)
  {
    SemLetraSemSucesso(PAGAMENTO_INVALIDO, 'u');
  }

  lemma CartaoObrigatorioSemSucesso()
    ensures !ResultadoSucesso(CARTAO_OBRIGATORIO)
  {
    SemLetraSemSucesso(CARTAO_OBRIGATORIO, 'u');
  }

  /** No message of `validarDadosCartao` contains "sucesso". */
  lemma MensagensCartaoSemSucesso()
    ensures forall m :: m in MensagensCartao ==> !ResultadoSucesso(m)
  {
    NumeroInvalidoSemSucesso();
    CodigoInvalidoSemSucesso();
    NomeObrigatorioSemSucesso();
    VencimentoInvalidoSemSucesso();
    ParcelasInvalidasSemSucesso();
  }

  /** None of the guard messages of `criarPedido` contains "sucesso". */
  lemma GuardasSemSucesso(carrinho: Option<map<int, int>>, clienteExiste: bool, endereco: Option<Endereco>,
                          forma: Option<string>, dados: Option<DadosCartao>)
    ensures var g := Guardas(carrinho, clienteExiste, endereco, forma, dados);
      g.Some? ==> !ResultadoSucesso(g.value) && g.value != PEDIDO_CRIADO
  {
    MensagensCartaoSemSucesso();
    CarrinhoVazioSemSucesso();
    ClienteNaoEncontradoSemSucesso();
    EnderecoObrigatorioSemSucesso();
    PagamentoInvalidoSemSucesso();
    CartaoObrigatorioSemSucesso();
    assert OccursAt(PEDIDO_CRIADO, "sucesso", 18);
  }

  /** The stock message is never the creation message, and it contains "sucesso" whenever the product name does. */
  lemma EstoqueComSucesso(nome: string)
    ensures MsgSemEstoque(nome) != PEDIDO_CRIADO
    ensures Contains(nome, "sucesso") ==> ResultadoSucesso(MsgSemEstoque(nome))
  {
    assert MsgSemEstoque(nome)[1] == 'r' != PEDIDO_CRIADO[1];
    if Contains(nome, "sucesso") {
      ContainsInRight("Produto ", nome, "sucesso");
      ContainsInLeft("Produto " + nome, " não possui estoque suficiente", "sucesso");
    }
  }

  /**
   * The test as written accepts an answer that reports a product short of
   * stock: for a product named "Gel sucesso" no order is saved, yet the
   * checkout goes on as if it had been.
   */
  lemma SucessoAceitaFaltaDeEstoque()
    ensures ResultadoSucesso(MsgSemEstoque("Gel sucesso")) && !PedidoConfirmado(MsgSemEstoque("Gel sucesso"))
  {
    assert OccursAt("Gel sucesso", "sucesso", 4);
    EstoqueComSucesso("Gel sucesso");
  }

  /** The intended test accepts an answer of `criarPedido` exactly when it saved an order. */
  lemma ConfirmadoSoComPedido(produtos: seq<Produto>, clienteExiste: bool, carrinho: Option<map<int, int>>,
                              endereco: Option<Endereco>, forma: Option<string>, dados: Option<DadosCartao>, r: string)
    requires var g := Guardas(carrinho, clienteExiste, endereco, forma, dados);
      || (g.Some? && r == g.value)
      || (g.None? && !FaltaEstoque(produtos, carrinho.value) && r == PEDIDO_CRIADO)
      || (g.None? && FaltaEstoque(produtos, carrinho.value) && exists nome :: r == MsgSemEstoque(nome))
    ensures PedidoConfirmado(r) <==> PedidoPossivel(produtos, clienteExiste, carrinho, endereco, forma, dados)
    ensures PedidoConfirmado(r) ==> ResultadoSucesso(r)
  {
    GuardasSemSucesso(carrinho, clienteExiste, endereco, forma, dados);
    if exists nome :: r == MsgSemEstoque(nome) {
      var nome :| r == MsgSemEstoque(nome);
      EstoqueComSucesso(nome);
    }
    assert OccursAt(PEDIDO_CRIADO, "sucesso", 18);
  }

  /** The session's checkout attributes are all gone. */
  predicate CheckoutLimpo(sessao: Sessao)
    reads sessao
  {
    sessao.carrinho.None? && sessao.enderecoEscolhido.None? && sessao.formaPagamentoEscolhida.None?
    && sessao.dadosCartaoEscolhidos.None? && sessao.freteEscolhido.None?
  }

  /** The subtotal of the cart at current prices, products that no longer exist left out. */
  method SomarCarrinho(produtos: seq<Produto>, carrinho: map<int, int>) returns (subtotal: real)
    ensures subtotal == Subtotal(produtos, carrinho)
  {
    ghost var f := (id, q) => ValorEntrada(produtos, id, q);
    subtotal := 0.0;
    var restantes := carrinho;
    while restantes != map[]
      invariant subtotal + Somas.SomaValores(restantes, f) == Somas.SomaValores(carrinho, f)
      decreases |restantes|
    {
      var id :| id in restantes;
      Somas.SomaValoresSem(restantes, f, id);
      var produto := ProdutoPorSequencial(produtos, id);
      if produto.Some? {
        subtotal := subtotal + ItemDe(produto.value, restantes[id]).total;
      }
      restantes := restantes - {id};
    }
  }

  // ---------------------------------------------------------------- the fee after an address change

  /**
   * What `recalcularFreteAutomatico` does for a customer: it throws (a null
   * address list, or a null postal code on the first default address),
   * leaves the fee alone (no default address), or charges the postal code
   * of the first default address.
   */
  function FreteRecalculado(c: Cliente): (r: Checked<Option<string>>)
    ensures r.Throws? ==> r.exception == NullPointer
    ensures r == Returns(None) <==> c.enderecosEntrega.Some? && forall e :: e in Entregas(c) ==> !e.padrao
    ensures r.Returns? && r.value.Some? ==> exists e :: e in Entregas(c) && e.padrao && e.cep == r.value
  {
    if c.enderecosEntrega.None? then Throws(NullPointer)
    else match PrimeiroPadrao(c.enderecosEntrega.value)
      case None => Returns(None)
      case Some(k) =>
        var e := c.enderecosEntrega.value[k];
        if e.cep.None? then Throws(NullPointer) else Returns(e.cep)
  }

  /** The session's fee and its postal code after a recalculation `f`, from the ones before. */
  predicate FreteAposRecalculo(f: Checked<Option<string>>, freteAntes: Option<real>, cepAntes: Option<string>,
                               frete: Option<real>, cep: Option<string>)
  {
    match f
    case Returns(Some(c)) => frete == Some(CalcularFretePorCep(c)) && cep == Some(c)
    case _ => frete == freteAntes && cep == cepAntes
  }

  /** An address added as the default decides the recalculated fee: its postal code is charged. */
  lemma PadraoNovoDefineFrete(c: Cliente, e: Endereco)
    ensures FreteRecalculado(ClienteServico.ComNovoEndereco(c, e, true)) == (if e.cep.None? then Throws(NullPointer) else Returns(e.cep))
  {
    var r := ClienteServico.ComNovoEndereco(c, e, true);
    var n := |Entregas(c)|;
    assert Entregas(r)[n].padrao;
    var s := r.enderecosEntrega.value;
    assert PrimeiroPadrao(s) == Some(n);
  }

  /**
   * An address marked as the default decides the recalculated fee: the
   * postal code of the first address with that id is charged.
   */
  lemma PadraoMarcadoDefineFrete(c: Cliente, enderecoId: string)
    requires exists e :: e in Entregas(c) && e.id == enderecoId
    ensures var s := Entregas(c);
      var k := Primeiro(s, (e: Endereco) => e.id == enderecoId);
      && k.Some?
      && FreteRecalculado(c.(enderecosEntrega := Some(ClienteServico.MarcarPrimeiro(s, enderecoId))))
         == (if s[k.value].cep.None? then Throws(NullPointer) else Returns(s[k.value].cep))
  {
    var s := Entregas(c);
    var k := Primeiro(s, (e: Endereco) => e.id == enderecoId);
    var e :| e in s && e.id == enderecoId;
    assert k.Some?;
    var m := ClienteServico.MarcarPrimeiro(s, enderecoId);
    assert m[k.value].padrao;
    assert m[k.value].cep == s[k.value].cep by {
      assert m[k.value].(padrao := s[k.value].padrao) == s[k.value];
    }
    match PrimeiroPadrao(m)
    case None =>
      assert false;
    case Some(j) =>
      assert j == k.value;
  }

  // ---------------------------------------------------------------- the address picked after adding one at checkout

  /** `endereco.getCep().equals(cep) && endereco.getNumero().equals(numero)` holds. */
  predicate Casa(e: Endereco, cep: string, numero: string) {
    e.cep == Some(cep) && e.numero == Some(numero)
  }

  /** The comparison throws: a null postal code, or a null number behind an equal postal code. */
  predicate Lanca(e: Endereco, cep: string) {
    e.cep.None? || (e.cep == Some(cep) && e.numero.None?)
  }

  /** The comparison is false without throwing, and the loop goes on. */
  predicate Segue(e: Endereco, cep: string, numero: string) {
    !Casa(e, cep, numero) && !Lanca(e, cep)
  }

  /**
   * The checkout's search for the address just added: the position of the
   * first address whose stored postal code and number equal the typed ones,
   * none, or the exception a null field throws on the way.
   */
  function PrimeiroPorCepENumero(s: seq<Endereco>, cep: string, numero: string): (r: Checked<Option<nat>>)
    ensures r == Returns(None) <==> forall j :: 0 <= j < |s| ==> Segue(s[j], cep, numero)
    ensures r.Returns? && r.value.Some? ==>
      r.value.value < |s| && Casa(s[r.value.value], cep, numero)
      && forall j :: 0 <= j < r.value.value ==> Segue(s[j], cep, numero)
    ensures r.Throws? ==>
      r.exception == NullPointer
      && exists k :: 0 <= k < |s| && Lanca(s[k], cep) && forall j :: 0 <= j < k ==> Segue(s[j], cep, numero)
  {
    if s == [] then Returns(None)
    else if Lanca(s[0], cep) then Throws(NullPointer)
    else if Casa(s[0], cep, numero) then Returns(Some(0))
    else match PrimeiroPorCepENumero(s[1..], cep, numero)
      case Throws(x) =>
        var k :| 0 <= k < |s[1..]| && Lanca(s[1..][k], cep) && forall j :: 0 <= j < k ==> Segue(s[1..][j], cep, numero);
        assert Lanca(s[k + 1], cep) && forall j :: 0 <= j < k + 1 ==> Segue(s[j], cep, numero) by {
          forall j | 0 <= j < k + 1
            ensures Segue(s[j], cep, numero)
          {
            if j > 0 {
              assert s[j] == s[1..][j - 1];
            }
          }
        }
        Throws(x)
      case Returns(None) => Returns(None)
      case Returns(Some(k)) => Returns(Some(k + 1))
  }

  /** The search stops at the first address it does not pass over. */
  lemma {:induction false} ParaNoPrimeiro(s: seq<Endereco>, i: nat, cep: string, numero: string)
    requires i < |s| && !Segue(s[i], cep, numero)
    requires forall j :: 0 <= j < i ==> Segue(s[j], cep, numero)
    ensures PrimeiroPorCepENumero(s, cep, numero) ==
      (if Casa(s[i], cep, numero) then Returns(Some(i)) else Throws(NullPointer))
  {
    if i > 0 {
      assert Segue(s[0], cep, numero);
      forall j | 0 <= j < i - 1
        ensures Segue(s[1..][j], cep, numero)
      {
        assert s[1..][j] == s[j + 1];
      }
      ParaNoPrimeiro(s[1..], i - 1, cep, numero);
    }
  }

  /**
   * When no stored address matches, an address appended with the typed
   * postal code and number is the one the search finds.
   */
  lemma {:induction false} AcrescentadoEncontrado(s: seq<Endereco>, e: Endereco, cep: string, numero: string)
    requires PrimeiroPorCepENumero(s, cep, numero) == Returns(None)
    requires Casa(e, cep, numero)
    ensures PrimeiroPorCepENumero(s + [e], cep, numero) == Returns(Some(|s|))
  {
    var t := s + [e];
    assert t[|s|] == e;
    forall j | 0 <= j < |s|
      ensures Segue(t[j], cep, numero)
    {
      assert t[j] == s[j];
    }
    ParaNoPrimeiro(t, |s|, cep, numero);
  }

  /**
   * A postal code typed with only digits finds the address just added at
   * checkout, provided no earlier address has that postal code and number:
   * the lookup stores the digits, which are the typed string itself.
   */
  lemma CepSoDigitosEncontraONovo(c: Cliente, consultado: Endereco, cep: string, numero: string, complemento: string)
    requires AllDigits(cep) && consultado.cep == Some(StripNonDigits(cep))
    requires PrimeiroPorCepENumero(Entregas(c), cep, numero) == Returns(None)
    ensures var novo := ClienteServico.ComNovoEndereco(c, consultado.(numero := Some(numero), complemento := Some(complemento)), false);
      PrimeiroPorCepENumero(Entregas(novo), cep, numero) == Returns(Some(|Entregas(c)|))
  {
    var e := consultado.(numero := Some(numero), complemento := Some(complemento));
    var novo := ClienteServico.ComNovoEndereco(c, e, false);
    StripKeepsDigits(cep);
    assert Entregas(novo) == Entregas(c) + [e.(padrao := false)];
    AcrescentadoEncontrado(Entregas(c), e.(padrao := false), cep, numero);
  }

  /**
   * A formatted postal code ("01310-100") never finds an address whose
   * stored postal code is digits only, as the lookup stores it: the
   * address is saved but not chosen.
   */
  lemma CepFormatadoNaoEncontra(s: seq<Endereco>, cep: string, numero: string)
    requires forall j :: 0 <= j < |s| && s[j].cep.Some? ==> AllDigits(s[j].cep.value)
    requires !AllDigits(cep)
    ensures !(PrimeiroPorCepENumero(s, cep, numero).Returns? && PrimeiroPorCepENumero(s, cep, numero).value.Some?)
  {
  }

  // ---------------------------------------------------------------- the controller

  class ClienteController {
    const clienteService: ClienteServico.ClienteService
    const pedidoService: PedidoService
    const produtoRepo: ProdutoRepository

    /** The catalogue the controller reads is the one the order service reads: one bean. */
    constructor (clienteService: ClienteServico.ClienteService, pedidoService: PedidoService,
                 produtoRepo: ProdutoRepository)
      requires produtoRepo == pedidoService.produtoRepo
      ensures this.clienteService == clienteService && this.pedidoService == pedidoService
      ensures this.produtoRepo == produtoRepo && this.produtoRepo == this.pedidoService.produtoRepo
    {
      this.clienteService := clienteService;
      this.pedidoService := pedidoService;
      this.produtoRepo := produtoRepo;
    }

    /**
     * `processarLoginCliente`: a customer the service authenticates is put
     * in the session and sent to the stored post-login target, which is
     * used once and removed, or else to the profile.
     */
    method ProcessarLoginCliente(email: string, senha: string, sessao: Sessao) returns (r: Resposta)
      modifies sessao`clienteLogado, sessao`redirecionarAposLogin
      ensures var c := clienteService.Autenticar(Some(email), senha);
        c.None? ==> r == Exibir(VISTA_LOGIN, Some(LOGIN_INVALIDO)) && unchanged(sessao)
      ensures var c := clienteService.Autenticar(Some(email), senha);
        c.Some? ==>
          && sessao.clienteLogado == c && sessao.redirecionarAposLogin.None?
          && r == Redirecionar(old(sessao.redirecionarAposLogin).GetOr(PARA_PERFIL))
    {
      var cliente := clienteService.Autenticar(Some(email), senha);
      if cliente.None? {
        return Exibir(VISTA_LOGIN, Some(LOGIN_INVALIDO));
      }
      sessao.clienteLogado := cliente;
      var destino := sessao.redirecionarAposLogin;
      if destino.Some? {
        sessao.redirecionarAposLogin := None;
        return Redirecionar(destino.value);
      }
      return Redirecionar(PARA_PERFIL);
    }

    /** `logoutCliente`: only the logged-in customer leaves the session; the cart stays. */
    method LogoutCliente(sessao: Sessao) returns (r: Resposta)
      modifies sessao`clienteLogado
      ensures sessao.clienteLogado.None? && r == Redirecionar(PARA_LOJA_APOS_SAIR)
    {
      sessao.clienteLogado := None;
      return Redirecionar(PARA_LOJA_APOS_SAIR);
    }

    /**
     * `recalcularFreteAutomatico`: the fee of the first default delivery
     * address and its postal code go into the session; without a default
     * address nothing changes. A null address list or a null postal code
     * throws before anything is stored.
     */
    method RecalcularFreteAutomatico(cliente: Cliente, sessao: Sessao) returns (excecao: Option<string>)
      modifies sessao`freteEscolhido, sessao`cepFreteAtual
      ensures cliente.enderecosEntrega.None? ==> excecao == Some(NullPointer) && unchanged(sessao)
      ensures cliente.enderecosEntrega.Some? && PrimeiroPadrao(cliente.enderecosEntrega.value).None? ==>
        excecao.None? && unchanged(sessao)
      ensures cliente.enderecosEntrega.Some? && PrimeiroPadrao(cliente.enderecosEntrega.value).Some? ==>
        var e := cliente.enderecosEntrega.value[PrimeiroPadrao(cliente.enderecosEntrega.value).value];
        && (e.cep.None? ==> excecao == Some(NullPointer) && unchanged(sessao))
        && (e.cep.Some? ==>
              excecao.None? && sessao.freteEscolhido == Some(CalcularFretePorCep(e.cep.value))
              && sessao.cepFreteAtual == e.cep)
      ensures excecao.Some? <==> FreteRecalculado(cliente).Throws?
      ensures FreteAposRecalculo(FreteRecalculado(cliente), old(sessao.freteEscolhido), old(sessao.cepFreteAtual),
                                 sessao.freteEscolhido, sessao.cepFreteAtual)
    {
      if cliente.enderecosEntrega.None? {
        return Some(NullPointer);
      }
      var padrao := PrimeiroPadrao(cliente.enderecosEntrega.value);
      if padrao.None? {
        return None;
      }
      var endereco := cliente.enderecosEntrega.value[padrao.value];
      if endereco.cep.None? {
        return Some(NullPointer);
      }
      sessao.freteEscolhido := Some(CalcularFretePorCep(endereco.cep.value));
      sessao.cepFreteAtual := endereco.cep;
      return None;
    }

    /**
     * `processarAlteracaoDados`: the service changes the session customer's
     * name, birth date and gender; on success the customer is reloaded into
     * the session, otherwise the form is shown again with the answer.
     */
    method ProcessarAlteracaoDados(nome: string, dataNascimento: string, genero: string, hoje: Data, sessao: Sessao)
      returns (r: Resposta)
      modifies clienteService.repo, sessao`clienteLogado
      ensures old(sessao.clienteLogado).None? ==>
        r == Redirecionar(PARA_LOGIN) && unchanged(sessao) && unchanged(clienteService.repo)
      ensures old(sessao.clienteLogado).Some? ==>
        var c := old(sessao.clienteLogado).value;
        var encontrado := old(clienteService.repo.FindById(c.id));
        var data := ClienteServico.DataNascimento(clienteService.oraculos.analisarData, Some(dataNascimento), hoje);
        var m := ClienteServico.MensagemAlteracaoDados(encontrado.Some?, Some(nome), data, Some(genero));
        var novo := clienteService.repo.FindById(c.id).GetOr(c);
        && (m == ClienteServico.DADOS_ALTERADOS ==>
              var salvo := encontrado.value.(nome := Some(Trim(nome)), dataNascimento := data, genero := Some(genero));
              && clienteService.repo.clientes == Salvar(old(clienteService.repo.clientes), salvo, IdCliente)
              && sessao.clienteLogado == Some(novo)
              && (old(clienteService.repo.Valid()) ==> novo == salvo)
              && r == Redirecionar(PARA_PERFIL + "?sucesso=" + m))
        && (m != ClienteServico.DADOS_ALTERADOS ==>
              && clienteService.repo.clientes == old(clienteService.repo.clientes)
              && unchanged(sessao)
              && r == Exibir(VISTA_ALTERAR_DADOS, Some(m)))
    {
      if sessao.clienteLogado.None? {
        return Redirecionar(PARA_LOGIN);
      }
      var c := sessao.clienteLogado.value;
      ghost var valido := clienteService.repo.Valid();
      ghost var encontrado := clienteService.repo.FindById(c.id);
      var resultado := clienteService.AlterarDadosCliente(c.id, Some(nome), Some(dataNascimento), Some(genero), hoje);
      if resultado == ClienteServico.DADOS_ALTERADOS {
        var novo := clienteService.repo.FindById(c.id).GetOr(c);
        ghost var salvo := encontrado.value.(nome := Some(Trim(nome)),
          dataNascimento := ClienteServico.DataNascimento(clienteService.oraculos.analisarData, Some(dataNascimento), hoje),
          genero := Some(genero));
        if valido {
          SalvarContem(old(clienteService.repo.clientes), salvo, IdCliente);
          clienteService.repo.EncontraOUnico(salvo);
        }
        sessao.clienteLogado := Some(novo);
        return Redirecionar(PARA_PERFIL + "?sucesso=" + resultado);
      }
      return Exibir(VISTA_ALTERAR_DADOS, Some(resultado));
    }

    /**
     * `processarAdicaoEndereco`: the service adds a delivery address from the
     * postal-code lookup; on success the customer is reloaded into the
     * session and, for a new default address, the fee is recalculated. The
     * street, district, city and state typed in the form are not passed on.
     */
    method ProcessarAdicaoEndereco(cep: string, numero: string, complemento: string, definirComoPadrao: bool,
                                   novoId: string, sessao: Sessao) returns (r: Checked<Resposta>)
      modifies clienteService.repo, sessao`clienteLogado, sessao`freteEscolhido, sessao`cepFreteAtual
      ensures old(sessao.clienteLogado).None? ==>
        r == Returns(Redirecionar(PARA_LOGIN)) && unchanged(sessao) && unchanged(clienteService.repo)
      ensures old(sessao.clienteLogado).Some? ==>
        var c := old(sessao.clienteLogado).value;
        var encontrado := old(clienteService.repo.FindById(c.id));
        var consultado := ViaCep.BuscarEnderecoPorCep(clienteService.oraculos.consultaCep, Some(cep), novoId);
        var m := ClienteServico.MensagemAdicaoEndereco(encontrado.Some?, consultado, Some(numero), Some(complemento));
        var novo := clienteService.repo.FindById(c.id).GetOr(c);
        && (m == ClienteServico.ENDERECO_ADICIONADO ==>
              var salvo := ClienteServico.ComNovoEndereco(encontrado.value,
                consultado.value.(numero := Some(numero), complemento := Some(complemento)), definirComoPadrao);
              && clienteService.repo.clientes == Salvar(old(clienteService.repo.clientes), salvo, IdCliente)
              && sessao.clienteLogado == Some(novo)
              && (old(clienteService.repo.Valid()) ==> novo == salvo)
              && (!definirComoPadrao ==>
                    && r == Returns(Redirecionar(PARA_ENDERECOS + "?sucesso=" + m))
                    && sessao.freteEscolhido == old(sessao.freteEscolhido)
                    && sessao.cepFreteAtual == old(sessao.cepFreteAtual))
              && (definirComoPadrao ==>
                    && r == (if FreteRecalculado(novo).Throws? then Throws(NullPointer)
                             else Returns(Redirecionar(PARA_ENDERECOS + "?sucesso=" + m + "&freteAtualizado=true")))
                    && FreteAposRecalculo(FreteRecalculado(novo), old(sessao.freteEscolhido), old(sessao.cepFreteAtual),
                                          sessao.freteEscolhido, sessao.cepFreteAtual)))
        && (m != ClienteServico.ENDERECO_ADICIONADO ==>
              && clienteService.repo.clientes == old(clienteService.repo.clientes)
              && unchanged(sessao)
              && r == Returns(Exibir(VISTA_ADICIONAR_ENDERECO, Some(m))))
    {
      if sessao.clienteLogado.None? {
        return Returns(Redirecionar(PARA_LOGIN));
      }
      var c := sessao.clienteLogado.value;
      ghost var valido := clienteService.repo.Valid();
      ghost var encontrado := clienteService.repo.FindById(c.id);
      var resultado := clienteService.AdicionarEnderecoEntrega(c.id, Some(cep), Some(numero), Some(complemento),
                                                                definirComoPadrao, novoId);
      if resultado != ClienteServico.ENDERECO_ADICIONADO {
        return Returns(Exibir(VISTA_ADICIONAR_ENDERECO, Some(resultado)));
      }
      var novo := clienteService.repo.FindById(c.id).GetOr(c);
      ghost var salvo := ClienteServico.ComNovoEndereco(encontrado.value,
        ViaCep.BuscarEnderecoPorCep(clienteService.oraculos.consultaCep, Some(cep), novoId).value.(numero := Some(numero),
                                                                                               complemento := Some(complemento)),
        definirComoPadrao);
      if valido {
        SalvarContem(old(clienteService.repo.clientes), salvo, IdCliente);
        clienteService.repo.EncontraOUnico(salvo);
      }
      sessao.clienteLogado := Some(novo);
      if definirComoPadrao {
        var excecao := RecalcularFreteAutomatico(novo, sessao);
        if excecao.Some? {
          return Throws(NullPointer);
        }
        return Returns(Redirecionar(PARA_ENDERECOS + "?sucesso=" + resultado + "&freteAtualizado=true"));
      }
      return Returns(Redirecionar(PARA_ENDERECOS + "?sucesso=" + resultado));
    }

    /**
     * `alterarEnderecoPadrao` (the controller's): whatever the service
     * answers, the customer is reloaded into the session and the fee is
     * recalculated from the stored default address.
     */
    method AlterarEnderecoPadrao(enderecoId: string, sessao: Sessao) returns (r: Checked<Resposta>)
      modifies clienteService.repo, sessao`clienteLogado, sessao`freteEscolhido, sessao`cepFreteAtual
      ensures old(sessao.clienteLogado).None? ==>
        r == Returns(Redirecionar(PARA_LOGIN)) && unchanged(sessao) && unchanged(clienteService.repo)
      ensures old(sessao.clienteLogado).Some? ==>
        var c := old(sessao.clienteLogado).value;
        var encontrado := old(clienteService.repo.FindById(c.id));
        var m := ClienteServico.MensagemEnderecoPadrao(encontrado, enderecoId);
        var novo := clienteService.repo.FindById(c.id).GetOr(c);
        && (m == ClienteServico.PADRAO_ALTERADO ==>
              var salvo := encontrado.value.(enderecosEntrega :=
                Some(ClienteServico.MarcarPrimeiro(Entregas(encontrado.value), enderecoId)));
              && clienteService.repo.clientes == Salvar(old(clienteService.repo.clientes), salvo, IdCliente)
              && (old(clienteService.repo.Valid()) ==> novo == salvo))
        && (m != ClienteServico.PADRAO_ALTERADO ==> clienteService.repo.clientes == old(clienteService.repo.clientes))
        && sessao.clienteLogado == Some(novo)
        && r == (if FreteRecalculado(novo).Throws? then Throws(NullPointer)
                 else Returns(Redirecionar(PARA_ENDERECOS + "?sucesso=" + m + "&freteAtualizado=true")))
        && FreteAposRecalculo(FreteRecalculado(novo), old(sessao.freteEscolhido), old(sessao.cepFreteAtual),
                              sessao.freteEscolhido, sessao.cepFreteAtual)
    {
      if sessao.clienteLogado.None? {
        return Returns(Redirecionar(PARA_LOGIN));
      }
      var c := sessao.clienteLogado.value;
      ghost var valido := clienteService.repo.Valid();
      ghost var encontrado := clienteService.repo.FindById(c.id);
      var resultado := clienteService.AlterarEnderecoPadrao(c.id, enderecoId);
      var novo := clienteService.repo.FindById(c.id).GetOr(c);
      if resultado == ClienteServico.PADRAO_ALTERADO && valido {
        ghost var salvo := encontrado.value.(enderecosEntrega :=
          Some(ClienteServico.MarcarPrimeiro(Entregas(encontrado.value), enderecoId)));
        SalvarContem(old(clienteService.repo.clientes), salvo, IdCliente);
        clienteService.repo.EncontraOUnico(salvo);
      }
      sessao.clienteLogado := Some(novo);
      var excecao := RecalcularFreteAutomatico(novo, sessao);
      if excecao.Some? {
        return Throws(NullPointer);
      }
      return Returns(Redirecionar(PARA_ENDERECOS + "?sucesso=" + resultado + "&freteAtualizado=true"));
    }

    /**
     * `processarAdicaoEnderecoCheckout`: the service adds a delivery address
     * that is not the default; on success the customer is reloaded into the
     * session and the first of its addresses whose stored postal code and
     * number equal the typed ones becomes the chosen address. When none
     * does, the form is shown again with the service's answer as its error,
     * even though the address was saved.
     */
    method ProcessarAdicaoEnderecoCheckout(cep: string, numero: string, complemento: string, novoId: string,
                                           sessao: Sessao) returns (r: Checked<Resposta>)
      modifies clienteService.repo, sessao`clienteLogado, sessao`enderecoEscolhido
      ensures old(sessao.clienteLogado).None? ==>
        r == Returns(Redirecionar(PARA_LOGIN)) && unchanged(sessao) && unchanged(clienteService.repo)
      ensures old(sessao.clienteLogado).Some? ==>
        var c := old(sessao.clienteLogado).value;
        var encontrado := old(clienteService.repo.FindById(c.id));
        var consultado := ViaCep.BuscarEnderecoPorCep(clienteService.oraculos.consultaCep, Some(cep), novoId);
        var m := ClienteServico.MensagemAdicaoEndereco(encontrado.Some?, consultado, Some(numero), Some(complemento));
        var novo := clienteService.repo.FindById(c.id).GetOr(c);
        && (m == ClienteServico.ENDERECO_ADICIONADO ==>
              var salvo := ClienteServico.ComNovoEndereco(encontrado.value,
                consultado.value.(numero := Some(numero), complemento := Some(complemento)), false);
              && clienteService.repo.clientes == Salvar(old(clienteService.repo.clientes), salvo, IdCliente)
              && sessao.clienteLogado == Some(novo)
              && (old(clienteService.repo.Valid()) ==> novo == salvo)
              && (novo.enderecosEntrega.None? ==>
                    r == Throws(NullPointer) && sessao.enderecoEscolhido == old(sessao.enderecoEscolhido))
              && (novo.enderecosEntrega.Some? ==>
                    match PrimeiroPorCepENumero(novo.enderecosEntrega.value, cep, numero)
                    case Throws(x) => r == Throws(x) && sessao.enderecoEscolhido == old(sessao.enderecoEscolhido)
                    case Returns(None) =>
                      r == Returns(Exibir(VISTA_ADICIONAR_ENDERECO_CHECKOUT, Some(m)))
                      && sessao.enderecoEscolhido == old(sessao.enderecoEscolhido)
                    case Returns(Some(k)) =>
                      r == Returns(Redirecionar(PARA_PAGAMENTO))
                      && sessao.enderecoEscolhido == Some(novo.enderecosEntrega.value[k])))
        && (m != ClienteServico.ENDERECO_ADICIONADO ==>
              && clienteService.repo.clientes == old(clienteService.repo.clientes)
              && unchanged(sessao)
              && r == Returns(Exibir(VISTA_ADICIONAR_ENDERECO_CHECKOUT, Some(m))))
    {
      if sessao.clienteLogado.None? {
        return Returns(Redirecionar(PARA_LOGIN));
      }
      var c := sessao.clienteLogado.value;
      ghost var valido := clienteService.repo.Valid();
      ghost var encontrado := clienteService.repo.FindById(c.id);
      var resultado := clienteService.AdicionarEnderecoEntrega(c.id, Some(cep), Some(numero), Some(complemento),
                                                                false, novoId);
      if resultado != ClienteServico.ENDERECO_ADICIONADO {
        return Returns(Exibir(VISTA_ADICIONAR_ENDERECO_CHECKOUT, Some(resultado)));
      }
      var novo := clienteService.repo.FindById(c.id).GetOr(c);
      ghost var salvo := ClienteServico.ComNovoEndereco(encontrado.value,
        ViaCep.BuscarEnderecoPorCep(clienteService.oraculos.consultaCep, Some(cep), novoId).value.(numero := Some(numero),
                                                                                               complemento := Some(complemento)),
        false);
      if valido {
        SalvarContem(old(clienteService.repo.clientes), salvo, IdCliente);
        clienteService.repo.EncontraOUnico(salvo);
      }
      sessao.clienteLogado := Some(novo);
      if novo.enderecosEntrega.None? {
        return Throws(NullPointer);
      }
      var s := novo.enderecosEntrega.value;
      var i := 0;
      while i < |s|
        invariant 0 <= i <= |s|
        invariant forall j :: 0 <= j < i ==> Segue(s[j], cep, numero)
        invariant sessao.enderecoEscolhido == old(sessao.enderecoEscolhido)
      {
        if s[i].cep.None? {
          ParaNoPrimeiro(s, i, cep, numero);
          return Throws(NullPointer);
        }
        if s[i].cep.value == cep {
          if s[i].numero.None? {
            ParaNoPrimeiro(s, i, cep, numero);
            return Throws(NullPointer);
          }
          if s[i].numero.value == numero {
            ParaNoPrimeiro(s, i, cep, numero);
            sessao.enderecoEscolhido := Some(s[i]);
            return Returns(Redirecionar(PARA_PAGAMENTO));
          }
        }
        i := i + 1;
      }
      return Returns(Exibir(VISTA_ADICIONAR_ENDERECO_CHECKOUT, Some(resultado)));
    }

    /**
     * `iniciarCheckout`: an anonymous visitor is sent to log in, with the
     * address step stored as the post-login target; a logged-in customer
     * goes to the address step unless the cart is null or empty.
     */
    method IniciarCheckout(sessao: Sessao) returns (r: Resposta)
      modifies sessao`redirecionarAposLogin
      ensures sessao.clienteLogado.None? ==>
        r == Redirecionar(PARA_LOGIN) && sessao.redirecionarAposLogin == Some(PARA_ENDERECO)
      ensures sessao.clienteLogado.Some? ==> unchanged(sessao)
      ensures sessao.clienteLogado.Some? && CarrinhoVazio(sessao.carrinho) ==> r == Redirecionar(PARA_CARRINHO_VAZIO)
      ensures sessao.clienteLogado.Some? && !CarrinhoVazio(sessao.carrinho) ==> r == Redirecionar(PARA_ENDERECO)
    {
      if sessao.clienteLogado.None? {
        sessao.redirecionarAposLogin := Some(PARA_ENDERECO);
        return Redirecionar(PARA_LOGIN);
      }
      if CarrinhoVazio(sessao.carrinho) {
        return Redirecionar(PARA_CARRINHO_VAZIO);
      }
      return Redirecionar(PARA_ENDERECO);
    }

    /**
     * `processarEnderecoEscolhido`: the first of the session customer's
     * delivery addresses with the given id becomes the chosen address; an
     * unknown id redisplays the page. The stored customer is read, not
     * reloaded, and a null address list throws.
     */
    method ProcessarEnderecoEscolhido(enderecoId: string, sessao: Sessao) returns (r: Checked<Resposta>)
      modifies sessao`enderecoEscolhido
      ensures sessao.clienteLogado.None? ==> r == Returns(Redirecionar(PARA_LOGIN)) && unchanged(sessao)
      ensures sessao.clienteLogado.Some? && sessao.clienteLogado.value.enderecosEntrega.None? ==>
        r == Throws(NullPointer) && unchanged(sessao)
      ensures sessao.clienteLogado.Some? && sessao.clienteLogado.value.enderecosEntrega.Some? ==>
        var s := sessao.clienteLogado.value.enderecosEntrega.value;
        match Primeiro(s, (e: Endereco) => e.id == enderecoId)
        case None => r == Returns(Exibir(VISTA_ENDERECO, Some(ENDERECO_INVALIDO))) && unchanged(sessao)
        case Some(k) => r == Returns(Redirecionar(PARA_PAGAMENTO)) && sessao.enderecoEscolhido == Some(s[k])
    {
      if sessao.clienteLogado.None? {
        return Returns(Redirecionar(PARA_LOGIN));
      }
      if sessao.clienteLogado.value.enderecosEntrega.None? {
        return Throws(NullPointer);
      }
      var s := sessao.clienteLogado.value.enderecosEntrega.value;
      var i := 0;
      while i < |s|
        invariant 0 <= i <= |s|
        invariant forall j :: 0 <= j < i ==> s[j].id != enderecoId
      {
        if s[i].id == enderecoId {
          break;
        }
        i := i + 1;
      }
      if i == |s| {
        return Returns(Exibir(VISTA_ENDERECO, Some(ENDERECO_INVALIDO)));
      }
      var escolhido := s[i];
      sessao.enderecoEscolhido := Some(escolhido);
      return Returns(Redirecionar(PARA_PAGAMENTO));
    }

    /**
     * `processarFormaPagamento`: only BOLETO and CARTAO are accepted; a
     * card needs all five fields and must pass `validarDadosCartao`. What
     * is stored is a payment `criarPedido` accepts, with null card data
     * for BOLETO.
     */
    method ProcessarFormaPagamento(formaPagamento: string, dados: DadosCartao, sessao: Sessao) returns (r: Resposta)
      modifies sessao`formaPagamentoEscolhida, sessao`dadosCartaoEscolhidos
      ensures sessao.clienteLogado.None? ==> r == Redirecionar(PARA_LOGIN) && unchanged(sessao)
      ensures sessao.clienteLogado.Some? && formaPagamento != "BOLETO" && formaPagamento != "CARTAO" ==>
        r == Exibir(VISTA_PAGAMENTO, Some(PAGAMENTO_INVALIDO)) && unchanged(sessao)
      ensures sessao.clienteLogado.Some? && formaPagamento == "CARTAO" && !CartaoCompleto(dados) ==>
        r == Exibir(VISTA_PAGAMENTO, Some(CARTAO_INCOMPLETO)) && unchanged(sessao)
      ensures sessao.clienteLogado.Some? && formaPagamento == "CARTAO" && CartaoCompleto(dados) && ValidarDadosCartao(dados).Some?
        ==>
        r == Exibir(VISTA_PAGAMENTO, ValidarDadosCartao(dados)) && unchanged(sessao)
      ensures r == Redirecionar(PARA_RESUMO) <==>
        sessao.clienteLogado.Some?
        && (formaPagamento == "BOLETO" || (formaPagamento == "CARTAO" && CartaoCompleto(dados) && ValidarDadosCartao(dados).None?))
      ensures r == Redirecionar(PARA_RESUMO) ==>
        && sessao.formaPagamentoEscolhida == Some(formaPagamento)
        && sessao.dadosCartaoEscolhidos == (if formaPagamento == "CARTAO" then Some(dados) else None)
        && PagamentoGuardado(sessao.formaPagamentoEscolhida, sessao.dadosCartaoEscolhidos)
    {
      if sessao.clienteLogado.None? {
        return Redirecionar(PARA_LOGIN);
      }
      if formaPagamento != "BOLETO" && formaPagamento != "CARTAO" {
        return Exibir(VISTA_PAGAMENTO, Some(PAGAMENTO_INVALIDO));
      }
      var cartao: Option<DadosCartao> := None;
      if formaPagamento == "CARTAO" {
        if !CartaoCompleto(dados) {
          return Exibir(VISTA_PAGAMENTO, Some(CARTAO_INCOMPLETO));
        }
        var erro := ValidarDadosCartao(dados);
        if erro.Some? {
          return Exibir(VISTA_PAGAMENTO, erro);
        }
        cartao := Some(dados);
      }
      sessao.formaPagamentoEscolhida := Some(formaPagamento);
      sessao.dadosCartaoEscolhidos := cartao;
      return Redirecionar(PARA_RESUMO);
    }

    /**
     * `resumoPedido`: the first missing step redirects; otherwise the page
     * shows the subtotal at current prices, the fee in the session (25.00
     * when none) and their sum. Nothing is changed.
     */
    method ResumoPedido(sessao: Sessao) returns (r: Resposta, valores: Option<Valores>)
      ensures r == RespostaResumo(sessao.clienteLogado.Some?, sessao.carrinho, sessao.enderecoEscolhido,
                                  sessao.formaPagamentoEscolhida)
      ensures valores.Some? <==> r.Exibir?
      ensures valores.Some? ==>
        var frete := sessao.freteEscolhido.GetOr(FRETE_PADRAO_CHECKOUT);
        var subtotal := Subtotal(produtoRepo.produtos, sessao.carrinho.value);
        valores == Some(Valores(subtotal, frete, subtotal + frete))
    {
      r := RespostaResumo(sessao.clienteLogado.Some?, sessao.carrinho, sessao.enderecoEscolhido,
                          sessao.formaPagamentoEscolhida);
      if r.Redirecionar? {
        return r, None;
      }
      var subtotal := SomarCarrinho(produtoRepo.produtos, sessao.carrinho.value);
      var frete := sessao.freteEscolhido.GetOr(FRETE_PADRAO_CHECKOUT);
      valores := Some(Valores(subtotal, frete, subtotal + frete));
    }

    /**
     * `criarPedido` as the checkout calls it, its answer read against the
     * order store: the creation message exactly when an order could be
     * made, and then the customer has an order to look up; any other
     * answer leaves the store as it was.
     */
    method CriarDoCheckout(clienteId: string, carrinho: map<int, int>, endereco: Option<Endereco>, forma: Option<string>,
                           dados: Option<DadosCartao>, frete: real, novoId: string, agora: Instante)
      returns (mensagem: string)
      modifies pedidoService.pedidoRepo
      ensures mensagem == PEDIDO_CRIADO <==>
        PedidoPossivel(pedidoService.produtoRepo.produtos, pedidoService.clienteRepo.FindById(clienteId).Some?,
                       Some(carrinho), endereco, forma, dados)
      ensures mensagem != PEDIDO_CRIADO ==> pedidoService.pedidoRepo.pedidos == old(pedidoService.pedidoRepo.pedidos)
      ensures mensagem == PEDIDO_CRIADO ==> pedidoService.pedidoRepo.MaisRecenteDoCliente(clienteId).Some?
    {
      ghost var antes := pedidoService.pedidoRepo.pedidos;
      ghost var numero := pedidoService.ProximoNumeroPedido();
      ghost var produtos := pedidoService.produtoRepo.produtos;
      ghost var clienteExiste := pedidoService.clienteRepo.FindById(clienteId).Some?;
      ghost var g := Guardas(Some(carrinho), clienteExiste, endereco, forma, dados);
      mensagem := pedidoService.CriarPedido(Some(carrinho), clienteId, endereco, forma, dados, Some(frete), novoId, agora);
      GuardasSemSucesso(Some(carrinho), clienteExiste, endereco, forma, dados);
      if g.None? && FaltaEstoque(produtos, carrinho) {
        ghost var id :| SemEstoque(produtos, carrinho, id)
          && mensagem == MsgSemEstoque(ProdutoPorSequencial(produtos, id).value.nome);
        EstoqueComSucesso(ProdutoPorSequencial(produtos, id).value.nome);
      }
      if g.None? && !FaltaEstoque(produtos, carrinho) {
        ghost var itens :| ItensDoCarrinho(itens, produtos, carrinho)
          && pedidoService.pedidoRepo.pedidos == Salvar(antes,
               PedidoCriado(novoId, numero, clienteId, endereco.value, forma.value, dados, Some(frete), itens,
                            Subtotal(produtos, carrinho), agora), IdPedido);
        SalvarContem(antes, PedidoCriado(novoId, numero, clienteId, endereco.value, forma.value, dados, Some(frete), itens,
                                         Subtotal(produtos, carrinho), agora), IdPedido);
      }
    }

    /**
     * The body of `finalizarPedido`, with the test it applies to the answer
     * of `criarPedido` as the parameter `aceito`: the source uses
     * `ResultadoSucesso`, the intended behaviour is `PedidoConfirmado`.
     * A refused answer redisplays the summary with it as error and leaves
     * the session alone. An accepted one looks up the customer's latest
     * order (throwing when there is none) and then removes exactly the five
     * checkout attributes.
     */
    method Finalizar(sessao: Sessao, novoId: string, agora: Instante, aceito: string -> bool)
      returns (r: Checked<Resposta>, resultado: Option<string>, confirmacao: Option<Confirmacao>)
      modifies pedidoService.pedidoRepo, sessao`carrinho, sessao`enderecoEscolhido, sessao`formaPagamentoEscolhida
      modifies sessao`dadosCartaoEscolhidos, sessao`freteEscolhido
      ensures old(sessao.clienteLogado).None? ==> r == Returns(Redirecionar(PARA_LOGIN)) && resultado.None?
      ensures old(sessao.clienteLogado).Some? && CarrinhoVazio(old(sessao.carrinho)) ==>
        r == Returns(Redirecionar(PARA_CARRINHO_VAZIO)) && resultado.None?
      ensures resultado.None? ==>
        pedidoService.pedidoRepo.pedidos == old(pedidoService.pedidoRepo.pedidos) && unchanged(sessao)
        && confirmacao.None?
      ensures old(sessao.clienteLogado).Some? && !CarrinhoVazio(old(sessao.carrinho)) ==>
        && resultado.Some?
        && (resultado.value == PEDIDO_CRIADO <==>
              PedidoPossivel(pedidoService.produtoRepo.produtos,
                             pedidoService.clienteRepo.FindById(old(sessao.clienteLogado).value.id).Some?,
                             old(sessao.carrinho), old(sessao.enderecoEscolhido), old(sessao.formaPagamentoEscolhida),
                             old(sessao.dadosCartaoEscolhidos)))
      ensures resultado.Some? && resultado.value != PEDIDO_CRIADO ==>
        pedidoService.pedidoRepo.pedidos == old(pedidoService.pedidoRepo.pedidos)
      ensures resultado == Some(PEDIDO_CRIADO) ==>
        pedidoService.pedidoRepo.MaisRecenteDoCliente(old(sessao.clienteLogado).value.id).Some?
      ensures resultado.Some? && !aceito(resultado.value) ==>
        && unchanged(sessao) && confirmacao.None?
        && r == Returns(ComErro(RespostaResumo(true, sessao.carrinho, sessao.enderecoEscolhido,
                                               sessao.formaPagamentoEscolhida), resultado.value))
      ensures resultado.Some? && aceito(resultado.value) ==>
        var ultimo := pedidoService.pedidoRepo.MaisRecenteDoCliente(old(sessao.clienteLogado).value.id);
        && (ultimo.None? ==> r == Throws(ListIndexOutOfBounds) && unchanged(sessao) && confirmacao.None?)
        && (ultimo.Some? ==>
              && r == Returns(Exibir(VISTA_CONFIRMADO, None)) && CheckoutLimpo(sessao)
              && confirmacao == Some(Confirmacao(ultimo.value.numeroPedido,
                                                 Subtotal(produtoRepo.produtos, old(sessao.carrinho).value)
                                                 + old(sessao.freteEscolhido).GetOr(FRETE_PADRAO_CHECKOUT))))
    {
      if sessao.clienteLogado.None? {
        return Returns(Redirecionar(PARA_LOGIN)), None, None;
      }
      var cliente := sessao.clienteLogado.value;
      var carrinho := sessao.carrinho;
      if CarrinhoVazio(carrinho) {
        return Returns(Redirecionar(PARA_CARRINHO_VAZIO)), None, None;
      }
      var frete := sessao.freteEscolhido.GetOr(FRETE_PADRAO_CHECKOUT);
      var mensagem := CriarDoCheckout(cliente.id, carrinho.value, sessao.enderecoEscolhido,
                                      sessao.formaPagamentoEscolhida, sessao.dadosCartaoEscolhidos, frete, novoId, agora);
      resultado := Some(mensagem);
      if !aceito(mensagem) {
        var resumo, _ := ResumoPedido(sessao);
        return Returns(ComErro(resumo, mensagem)), resultado, None;
      }
      r, confirmacao := Confirmar(sessao, cliente.id, carrinho.value, frete);
    }

    /**
     * The accepted branch of `finalizarPedido`: the customer's latest order
     * is looked up (`get(0)` of an empty list throws), the confirmation
     * carries its number and the cart's total with the fee, and the five
     * checkout attributes are removed.
     */
    method Confirmar(sessao: Sessao, clienteId: string, carrinho: map<int, int>, frete: real)
      returns (r: Checked<Resposta>, confirmacao: Option<Confirmacao>)
      modifies sessao`carrinho, sessao`enderecoEscolhido, sessao`formaPagamentoEscolhida
      modifies sessao`dadosCartaoEscolhidos, sessao`freteEscolhido
      ensures var ultimo := pedidoService.pedidoRepo.MaisRecenteDoCliente(clienteId);
        && (ultimo.None? ==> r == Throws(ListIndexOutOfBounds) && unchanged(sessao) && confirmacao.None?)
        && (ultimo.Some? ==>
              && r == Returns(Exibir(VISTA_CONFIRMADO, None)) && CheckoutLimpo(sessao)
              && confirmacao == Some(Confirmacao(ultimo.value.numeroPedido, Subtotal(produtoRepo.produtos, carrinho) + frete)))
    {
      var ultimo := pedidoService.pedidoRepo.MaisRecenteDoCliente(clienteId);
      if ultimo.None? {
        return Throws(ListIndexOutOfBounds), None;
      }
      var subtotal := SomarCarrinho(produtoRepo.produtos, carrinho);
      confirmacao := Some(Confirmacao(ultimo.value.numeroPedido, subtotal + frete));
      sessao.RemoverCheckout();
      r := Returns(Exibir(VISTA_CONFIRMADO, None));
    }

    /**
     * `finalizarPedido` as written. Its test lets a "short of stock"
     * answer through when the product's name contains "sucesso": the
     * checkout attributes are then removed although no order was saved.
     */
    method FinalizarPedido(sessao: Sessao, novoId: string, agora: Instante)
      returns (r: Checked<Resposta>, resultado: Option<string>, confirmacao: Option<Confirmacao>)
      modifies pedidoService.pedidoRepo, sessao`carrinho, sessao`enderecoEscolhido, sessao`formaPagamentoEscolhida
      modifies sessao`dadosCartaoEscolhidos, sessao`freteEscolhido
      ensures resultado.None? || !ResultadoSucesso(resultado.value) ==> unchanged(sessao)
      ensures resultado.Some? && ResultadoSucesso(resultado.value) ==> r.Throws? || CheckoutLimpo(sessao)
      ensures resultado.Some? && resultado.value != PEDIDO_CRIADO ==>
        pedidoService.pedidoRepo.pedidos == old(pedidoService.pedidoRepo.pedidos)
    {
      r, resultado, confirmacao := Finalizar(sessao, novoId, agora, ResultadoSucesso);
    }

    /**
     * `finalizarPedido` with the intended test: the checkout attributes
     * are removed exactly when `criarPedido` saved the order, and the
     * lookup of the customer's latest order then always succeeds.
     */
    method FinalizarPedidoConfirmado(sessao: Sessao, novoId: string, agora: Instante)
      returns (r: Checked<Resposta>, confirmacao: Option<Confirmacao>)
      modifies pedidoService.pedidoRepo, sessao`carrinho, sessao`enderecoEscolhido, sessao`formaPagamentoEscolhida
      modifies sessao`dadosCartaoEscolhidos, sessao`freteEscolhido
      ensures r.Returns?
      ensures confirmacao.Some? <==>
        old(sessao.clienteLogado).Some? && !CarrinhoVazio(old(sessao.carrinho))
        && PedidoPossivel(pedidoService.produtoRepo.produtos,
                          pedidoService.clienteRepo.FindById(old(sessao.clienteLogado).value.id).Some?,
                          old(sessao.carrinho), old(sessao.enderecoEscolhido), old(sessao.formaPagamentoEscolhida),
                          old(sessao.dadosCartaoEscolhidos))
      ensures confirmacao.Some? ==> CheckoutLimpo(sessao)
      ensures confirmacao.None? ==>
        unchanged(sessao) && pedidoService.pedidoRepo.pedidos == old(pedidoService.pedidoRepo.pedidos)
    {
      var resultado;
      r, resultado, confirmacao := Finalizar(sessao, novoId, agora, PedidoConfirmado);
    }

    /**
     * `detalhesPedido`: the order with that number, shown only to its
     * owner; a foreign order gets the same "not found" redirect as a
     * missing one. An order without an owner throws.
     */
    method DetalhesPedido(numeroPedido: int, sessao: Sessao) returns (r: Checked<Resposta>, pedido: Option<Pedido>)
      ensures sessao.clienteLogado.None? ==> r == Returns(Redirecionar(PARA_LOGIN)) && pedido.None?
      ensures sessao.clienteLogado.Some? ==>
        var achado := pedidoService.pedidoRepo.FindByNumeroPedido(numeroPedido);
        && (achado.Some? && achado.value.clienteId.None? ==> r == Throws(NullPointer) && pedido.None?)
        && (achado.None? || (achado.value.clienteId.Some? && achado.value.clienteId != Some(sessao.clienteLogado.value.id)) ==>
              r == Returns(Redirecionar(PARA_PEDIDO_NAO_ENCONTRADO)) && pedido.None?)
        && (achado.Some? && achado.value.clienteId == Some(sessao.clienteLogado.value.id) ==>
              r == Returns(Exibir(VISTA_DETALHES, None)) && pedido == achado)
      ensures r == Returns(Exibir(VISTA_DETALHES, None)) <==> pedido.Some?
      ensures pedido.Some? ==>
        && pedido == pedidoService.pedidoRepo.FindByNumeroPedido(numeroPedido)
        && sessao.clienteLogado.Some? && pedido.value.clienteId == Some(sessao.clienteLogado.value.id)
    {
      if sessao.clienteLogado.None? {
        return Returns(Redirecionar(PARA_LOGIN)), None;
      }
      var achado := pedidoService.pedidoRepo.FindByNumeroPedido(numeroPedido);
      if achado.None? {
        return Returns(Redirecionar(PARA_PEDIDO_NAO_ENCONTRADO)), None;
      }
      if achado.value.clienteId.None? {
        return Throws(NullPointer), None;
      }
      if achado.value.clienteId.value != sessao.clienteLogado.value.id {
        return Returns(Redirecionar(PARA_PEDIDO_NAO_ENCONTRADO)), None;
      }
      return Returns(Exibir(VISTA_DETALHES, None)), achado;
    }
  }

  /** All five card fields are present. */
  predicate CartaoCompleto(d: DadosCartao) {
    d.numeroCartao.Some? && d.codigoVerificador.Some? && d.nomeCompleto.Some? && d.dataVencimento.Some?
    && d.quantidadeParcelas.Some?
  }
}
