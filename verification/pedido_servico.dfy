/**
 * The order service: card-data checks, order creation from the session
 * cart, the status update of the backoffice and the order numbering.
 * "Now" and the fresh store identifier are passed in.
 */
module PedidoServico {
  import opened Wrappers
  import opened Text
  import opened Tempo
  import opened Enderecos
  import opened Pedidos
  import opened Produtos
  import opened Sequencial
  import opened Somas
  import opened Repositorios

  const NUMERO_INVALIDO := "Número do cartão inválido"
  const CODIGO_INVALIDO := "Código verificador deve ter 3 dígitos"
  const NOME_OBRIGATORIO := "Nome completo é obrigatório"
  const VENCIMENTO_INVALIDO := "Data de vencimento " + "inválida. Use o formato MM/AA"
  const PARCELAS_INVALIDAS := "Quantidade de parcelas " + "inválida (deve ser entre 1 e 12)"
  const CARRINHO_VAZIO := "Carrinho vazio"
  const CLIENTE_NAO_ENCONTRADO := "Cliente não encontrado"
  const ENDERECO_OBRIGATORIO := "Endereço de entrega obrigatório"
  const PAGAMENTO_INVALIDO := "Forma de pagamento inválida"
  const CARTAO_OBRIGATORIO := "Dados do cartão obrigatórios"
  const PEDIDO_CRIADO := "Pedido criado com sucesso"
  const PEDIDO_NAO_ENCONTRADO := "Pedido não encontrado"
  const STATUS_INVALIDO := "Status inválido"
  const STATUS_ATUALIZADO := "Status atualizado com sucesso"

  /** The failure messages of the card check, in the order the checks run. */
  const MensagensCartao: seq<string> :=
    [NUMERO_INVALIDO, CODIGO_INVALIDO, NOME_OBRIGATORIO, VENCIMENTO_INVALIDO, PARCELAS_INVALIDAS]

  // ---------------------------------------------------------------- card data

  /** What `\d{2}/\d{2}` matches: the shape only, any two digits either side. */
  predicate VencimentoValido(s: string) {
    |s| == 5 && IsDigit(s[0]) && IsDigit(s[1]) && s[2] == '/' && IsDigit(s[3]) && IsDigit(s[4])
  }

  /** Check number `k` of `validarDadosCartao`, in the order of `MensagensCartao`. */
  predicate ConfereCartao(d: DadosCartao, k: nat) {
    match k
    case 0 => d.numeroCartao.Some? && |StripNonDigits(d.numeroCartao.value)| >= 13
    case 1 => d.codigoVerificador.Some? && |d.codigoVerificador.value| == 3
    case 2 => !NullOrBlank(d.nomeCompleto)
    case 3 => d.dataVencimento.Some? && VencimentoValido(d.dataVencimento.value)
    case 4 => d.quantidadeParcelas.Some? && 1 <= d.quantidadeParcelas.value <= 12
    case _ => true
  }

  /** Checks 0..k-1 all pass. */
  predicate CartaoConfereAte(d: DadosCartao, k: nat) {
    k == 0 || (CartaoConfereAte(d, k - 1) && ConfereCartao(d, k - 1))
  }

  /** `validarDadosCartao`: null when the card is acceptable, else the message of the first failing check. */
  function ValidarDadosCartao(d: DadosCartao): (r: Option<string>)
    ensures r.Some? ==> r.value in MensagensCartao
  {
    if d.numeroCartao.None? || |StripNonDigits(d.numeroCartao.value)| < 13 then Some(NUMERO_INVALIDO)
    else if d.codigoVerificador.None? || |d.codigoVerificador.value| != 3 then Some(CODIGO_INVALIDO)
    else if NullOrBlank(d.nomeCompleto) then Some(NOME_OBRIGATORIO)
    else if d.dataVencimento.None? || !VencimentoValido(d.dataVencimento.value) then Some(VENCIMENTO_INVALIDO)
    else if d.quantidadeParcelas.None? || d.quantidadeParcelas.value < 1 || d.quantidadeParcelas.value > 12 then
      Some(PARCELAS_INVALIDAS)
    else None
  }

  /**
   * The first failing check wins: the answer is the message of check `k`
   * exactly when checks 0..k-1 pass and check `k` fails, and null exactly
   * when all five pass.
   */
  lemma CartaoPrimeiraFalha(d: DadosCartao)
    ensures forall k :: 0 <= k < |MensagensCartao| ==>
      (ValidarDadosCartao(d) == Some(MensagensCartao[k]) <==> CartaoConfereAte(d, k) && !ConfereCartao(d, k))
    ensures ValidarDadosCartao(d).None? <==> CartaoConfereAte(d, |MensagensCartao|)
  {
    var c0, c1, c2, c3, c4 := ConfereCartao(d, 0), ConfereCartao(d, 1), ConfereCartao(d, 2), ConfereCartao(d, 3),
                              ConfereCartao(d, 4);
    assert CartaoConfereAte(d, 1) == c0;
    assert CartaoConfereAte(d, 2) == (c0 && c1);
    assert CartaoConfereAte(d, 3) == (c0 && c1 && c2);
    assert CartaoConfereAte(d, 4) == (c0 && c1 && c2 && c3);
    assert CartaoConfereAte(d, 5) == (c0 && c1 && c2 && c3 && c4);
  }

  /** The code check counts characters, not digits: "abc" passes as a code. */
  lemma CodigoSoContaCaracteres()
    ensures ConfereCartao(DadosCartao(None, Some("abc"), None, None, None), 1)
  {
  }

  /** The expiry check is shape-only: "99/99" passes as an expiry date. */
  lemma VencimentoSoFormato()
    ensures ConfereCartao(DadosCartao(None, None, None, Some("99/99"), None), 3)
  {
  }

  /**
   * With a number of at least 13 digits, a name and 1..12 instalments, the
   * code "abc" and the expiry "99/99" pass the whole check.
   */
  lemma CartaoSoFormato(numero: string, parcelas: int)
    requires AllDigits(numero) && |numero| >= 13 && 1 <= parcelas <= 12
    ensures ValidarDadosCartao(DadosCartao(Some(numero), Some("abc"), Some("Ana"), Some("99/99"), Some(parcelas))).None?
  {
    StripKeepsDigits(numero);
    NomePreenchido();
    VencimentoSoFormato();
  }

  lemma NomePreenchido()
    ensures !NullOrBlank(Some("Ana"))
  {
    assert !Trimmable("Ana"[0]);
  }

  // ---------------------------------------------------------------- order creation

  /** `isStatusValido`: one of the six working statuses; null and CANCELADO are refused. */
  predicate StatusValido(status: Option<string>) {
    status.Some? && status.value in CodigosComRotulo[..6]
  }

  /** The valid statuses are exactly the labelled codes other than CANCELADO. */
  lemma StatusValidoRotulados(s: string)
    ensures StatusValido(Some(s)) <==> s in CodigosComRotulo && s != CANCELADO
    ensures !StatusValido(None) && !StatusValido(Some(CANCELADO))
  {
    assert CodigosComRotulo == CodigosComRotulo[..6] + [CANCELADO];
  }

  /** The line item built for product `p` bought `quantidade` times: a snapshot of name and price. */
  function ItemDe(p: Produto, quantidade: int): (it: ItemPedido)
    ensures it.produtoSequencialId == p.sequencialId && it.nomeProduto == p.nome
    ensures it.quantidade == quantidade && it.precoUnitario == p.preco
    ensures it.total == p.preco * quantidade as real
  {
    ItemPedido(p.sequencialId, p.nome, quantidade, p.preco, p.preco * quantidade as real)
  }

  /** What one cart entry adds to the subtotal: price × quantity, or nothing for a missing product. */
  function ValorEntrada(produtos: seq<Produto>, id: int, quantidade: int): real {
    match ProdutoPorSequencial(produtos, id)
    case None => 0.0
    case Some(p) => ItemDe(p, quantidade).total
  }

  /** The order's subtotal: the sum over the cart of price × quantity of the products that exist. */
  ghost function Subtotal(produtos: seq<Produto>, carrinho: map<int, int>): real {
    SomaValores(carrinho, (id, q) => ValorEntrada(produtos, id, q))
  }

  /** Entry `id` names an existing product with less stock than the quantity asked. */
  predicate SemEstoque(produtos: seq<Produto>, carrinho: map<int, int>, id: int) {
    id in carrinho && ProdutoPorSequencial(produtos, id).Some?
    && ProdutoPorSequencial(produtos, id).value.quantidadeEstoque < carrinho[id]
  }

  /** Some entry of the cart is short of stock. */
  predicate FaltaEstoque(produtos: seq<Produto>, carrinho: map<int, int>) {
    exists id | id in carrinho :: SemEstoque(produtos, carrinho, id)
  }

  function MsgSemEstoque(nome: string): string {
    "Produto " + nome + " não possui estoque suficiente"
  }

  /**
   * `itens` are the items made so far from the entries of `carrinho` not in
   * `pendentes`: one per such entry whose product exists, none twice, each
   * the snapshot of its product.
   */
  predicate ItensParciais(itens: seq<ItemPedido>, produtos: seq<Produto>, carrinho: map<int, int>, pendentes: set<int>) {
    ItensSemRepeticao(itens) && ItensFeitos(itens, produtos, carrinho, pendentes)
    && ItensCobrem(itens, produtos, carrinho, pendentes)
  }

  /** No product has two items. */
  predicate ItensSemRepeticao(itens: seq<ItemPedido>) {
    forall i, j :: 0 <= i < j < |itens| ==> itens[i].produtoSequencialId != itens[j].produtoSequencialId
  }

  /** Each item is the snapshot of an existing product for an entry already walked. */
  predicate ItensFeitos(itens: seq<ItemPedido>, produtos: seq<Produto>, carrinho: map<int, int>, pendentes: set<int>) {
    forall i :: 0 <= i < |itens| ==>
      && itens[i].produtoSequencialId.Some? && itens[i].produtoSequencialId.value in carrinho
      && itens[i].produtoSequencialId.value !in pendentes
      && ProdutoPorSequencial(produtos, itens[i].produtoSequencialId.value).Some?
      && itens[i] == ItemDe(ProdutoPorSequencial(produtos, itens[i].produtoSequencialId.value).value,
                            carrinho[itens[i].produtoSequencialId.value])
  }

  /** Each walked entry whose product exists has an item. */
  predicate ItensCobrem(itens: seq<ItemPedido>, produtos: seq<Produto>, carrinho: map<int, int>, pendentes: set<int>) {
    forall id :: id in carrinho && id !in pendentes && ProdutoPorSequencial(produtos, id).Some? ==>
      exists i :: 0 <= i < |itens| && itens[i].produtoSequencialId == Some(id)
  }

  /** Walking an entry whose product exists adds its item. */
  lemma ItensPasso(itens: seq<ItemPedido>, produtos: seq<Produto>, carrinho: map<int, int>, pendentes: set<int>, id: int)
    requires ItensParciais(itens, produtos, carrinho, pendentes)
    requires id in pendentes && id in carrinho && ProdutoPorSequencial(produtos, id).Some?
    ensures ItensParciais(itens + [ItemDe(ProdutoPorSequencial(produtos, id).value, carrinho[id])], produtos, carrinho,
                          pendentes - {id})
  {
    var item := ItemDe(ProdutoPorSequencial(produtos, id).value, carrinho[id]);
    ItensPassoSemRepeticao(itens, produtos, carrinho, pendentes, id);
    ItensPassoFeitos(itens, produtos, carrinho, pendentes, id);
    ItensPassoCobrem(itens, item, produtos, carrinho, pendentes, id);
  }

  lemma ItensPassoSemRepeticao(itens: seq<ItemPedido>, produtos: seq<Produto>, carrinho: map<int, int>,
                               pendentes: set<int>, id: int)
    requires ItensSemRepeticao(itens) && ItensFeitos(itens, produtos, carrinho, pendentes)
    requires id in pendentes && id in carrinho && ProdutoPorSequencial(produtos, id).Some?
    ensures ItensSemRepeticao(itens + [ItemDe(ProdutoPorSequencial(produtos, id).value, carrinho[id])])
  {
    var novos := itens + [ItemDe(ProdutoPorSequencial(produtos, id).value, carrinho[id])];
    forall i, j | 0 <= i < j < |novos|
      ensures novos[i].produtoSequencialId != novos[j].produtoSequencialId
    {
      assert novos[i] == itens[i];
      if j < |itens| {
        assert novos[j] == itens[j];
      }
    }
  }

  lemma ItensPassoFeitos(itens: seq<ItemPedido>, produtos: seq<Produto>, carrinho: map<int, int>,
                         pendentes: set<int>, id: int)
    requires ItensFeitos(itens, produtos, carrinho, pendentes)
    requires id in pendentes && id in carrinho && ProdutoPorSequencial(produtos, id).Some?
    ensures ItensFeitos(itens + [ItemDe(ProdutoPorSequencial(produtos, id).value, carrinho[id])], produtos, carrinho,
                        pendentes - {id})
  {
    var novos := itens + [ItemDe(ProdutoPorSequencial(produtos, id).value, carrinho[id])];
    forall i | 0 <= i < |novos|
      ensures novos[i].produtoSequencialId.Some? && novos[i].produtoSequencialId.value !in pendentes - {id}
    {
      if i < |itens| {
        assert novos[i] == itens[i];
      }
    }
  }

  lemma ItensPassoCobrem(itens: seq<ItemPedido>, item: ItemPedido, produtos: seq<Produto>, carrinho: map<int, int>,
                         pendentes: set<int>, id: int)
    requires ItensCobrem(itens, produtos, carrinho, pendentes) && item.produtoSequencialId == Some(id)
    ensures ItensCobrem(itens + [item], produtos, carrinho, pendentes - {id})
  {
    var novos := itens + [item];
    assert novos[|itens|] == item;
    forall k | k in carrinho && k !in pendentes - {id} && ProdutoPorSequencial(produtos, k).Some?
      ensures exists i :: 0 <= i < |novos| && novos[i].produtoSequencialId == Some(k)
    {
      if k != id {
        var i :| 0 <= i < |itens| && itens[i].produtoSequencialId == Some(k);
        assert novos[i] == itens[i];
      }
    }
  }

  /** Walking an entry whose product is missing adds nothing. */
  lemma ItensPula(itens: seq<ItemPedido>, produtos: seq<Produto>, carrinho: map<int, int>, pendentes: set<int>, id: int)
    requires ItensParciais(itens, produtos, carrinho, pendentes)
    requires ProdutoPorSequencial(produtos, id).None?
    ensures ItensParciais(itens, produtos, carrinho, pendentes - {id})
  {
  }

  /** The items of an order made from the whole of `carrinho`, in any order. */
  predicate ItensDoCarrinho(itens: seq<ItemPedido>, produtos: seq<Produto>, carrinho: map<int, int>) {
    ItensParciais(itens, produtos, carrinho, {})
  }

  /** How the walk over the cart ends: a product short of stock, or the items and their subtotal. */
  datatype Percurso = Falta(nome: string) | Completo(itens: seq<ItemPedido>, subtotal: real)

  /**
   * The `for` loop of `criarPedido` over the cart's entries, in the map's own
   * (unspecified) order: a missing product is skipped, a product short of
   * stock ends the walk with its name, and every other entry adds an item
   * and its value to the subtotal.
   */
  method PercorrerCarrinho(produtos: seq<Produto>, carrinho: map<int, int>) returns (r: Percurso)
    ensures r.Falta? <==> FaltaEstoque(produtos, carrinho)
    ensures r.Falta? ==> exists id :: SemEstoque(produtos, carrinho, id) && r.nome == ProdutoPorSequencial(produtos, id).value.nome
    ensures r.Completo? ==> ItensDoCarrinho(r.itens, produtos, carrinho) && r.subtotal == Subtotal(produtos, carrinho)
  {
    ghost var f := (id, q) => ValorEntrada(produtos, id, q);
    var itens: seq<ItemPedido> := [];
    var subtotal := 0.0;
    var restantes := carrinho;
    while restantes != map[]
      invariant restantes.Keys <= carrinho.Keys && forall id :: id in restantes ==> restantes[id] == carrinho[id]
      invariant subtotal + SomaValores(restantes, f) == SomaValores(carrinho, f)
      invariant forall id :: id in carrinho && id !in restantes ==> !SemEstoque(produtos, carrinho, id)
      invariant ItensParciais(itens, produtos, carrinho, restantes.Keys)
      decreases |restantes|
    {
      var id :| id in restantes;
      SomaValoresSem(restantes, f, id);
      var encontrado := ProdutoPorSequencial(produtos, id);
      if encontrado.Some? {
        var produto := encontrado.value;
        var quantidade := restantes[id];
        if produto.quantidadeEstoque < quantidade {
          assert SemEstoque(produtos, carrinho, id);
          return Falta(produto.nome);
        }
        var item := ItemDe(produto, quantidade);
        ItensPasso(itens, produtos, carrinho, restantes.Keys, id);
        itens := itens + [item];
        subtotal := subtotal + item.total;
      } else {
        ItensPula(itens, produtos, carrinho, restantes.Keys, id);
      }
      assert (restantes - {id}).Keys == restantes.Keys - {id};
      restantes := restantes - {id};
    }
    assert restantes.Keys == {};
    return Completo(itens, subtotal);
  }

  /** The messages of the guards of `criarPedido` that answer with their own text, in the order they run. */
  const MensagensGuardas: seq<string> :=
    [CARRINHO_VAZIO, CLIENTE_NAO_ENCONTRADO, ENDERECO_OBRIGATORIO, PAGAMENTO_INVALIDO, CARTAO_OBRIGATORIO]

  /**
   * Guard number `k` of `criarPedido`, in the order of `MensagensGuardas`;
   * guard 5 is the card check, which answers with the card's own message.
   */
  predicate ConfereGuarda(carrinho: Option<map<int, int>>, clienteExiste: bool, enderecoEntrega: Option<Endereco>,
                          formaPagamento: Option<string>, dadosCartao: Option<DadosCartao>, k: nat) {
    match k
    case 0 => carrinho.Some? && carrinho.value != map[]
    case 1 => clienteExiste
    case 2 => enderecoEntrega.Some?
    case 3 => formaPagamento == Some("BOLETO") || formaPagamento == Some("CARTAO")
    case 4 => formaPagamento != Some("CARTAO") || dadosCartao.Some?
    case 5 => formaPagamento != Some("CARTAO") || (dadosCartao.Some? && ValidarDadosCartao(dadosCartao.value).None?)
    case _ => true
  }

  /** Guards 0..k-1 all pass. */
  predicate GuardasConferemAte(carrinho: Option<map<int, int>>, clienteExiste: bool, enderecoEntrega: Option<Endereco>,
                               formaPagamento: Option<string>, dadosCartao: Option<DadosCartao>, k: nat) {
    k == 0 || (GuardasConferemAte(carrinho, clienteExiste, enderecoEntrega, formaPagamento, dadosCartao, k - 1)
               && ConfereGuarda(carrinho, clienteExiste, enderecoEntrega, formaPagamento, dadosCartao, k - 1))
  }

  /** The first failing guard of `criarPedido`, before the cart is read; null when all pass. */
  function Guardas(carrinho: Option<map<int, int>>, clienteExiste: bool, enderecoEntrega: Option<Endereco>,
                   formaPagamento: Option<string>, dadosCartao: Option<DadosCartao>): (r: Option<string>)
    ensures r.None? ==> carrinho.Some? && carrinho.value != map[] && clienteExiste && enderecoEntrega.Some?
    ensures r.None? ==> formaPagamento == Some("BOLETO") || formaPagamento == Some("CARTAO")
    ensures r.None? && formaPagamento == Some("CARTAO") ==> dadosCartao.Some? && ValidarDadosCartao(dadosCartao.value).None?
    ensures carrinho.None? || carrinho.value == map[] ==> r == Some(CARRINHO_VAZIO)
  {
    if carrinho.None? || carrinho.value == map[] then Some(CARRINHO_VAZIO)
    else if !clienteExiste then Some(CLIENTE_NAO_ENCONTRADO)
    else if enderecoEntrega.None? then Some(ENDERECO_OBRIGATORIO)
    else if formaPagamento != Some("BOLETO") && formaPagamento != Some("CARTAO") then Some(PAGAMENTO_INVALIDO)
    else if formaPagamento == Some("CARTAO") && dadosCartao.None? then Some(CARTAO_OBRIGATORIO)
    else if formaPagamento == Some("CARTAO") then ValidarDadosCartao(dadosCartao.value)
    else None
  }

  /**
   * The first failing guard wins: the answer is the message of guard `k`
   * exactly when guards 0..k-1 pass and guard `k` fails; when only the card
   * check fails, the answer is the card's own message; the answer is null
   * exactly when all six guards pass.
   */
  lemma GuardasPrimeiraFalha(carrinho: Option<map<int, int>>, clienteExiste: bool, enderecoEntrega: Option<Endereco>,
                             formaPagamento: Option<string>, dadosCartao: Option<DadosCartao>)
    ensures forall k :: 0 <= k < |MensagensGuardas| ==>
      (Guardas(carrinho, clienteExiste, enderecoEntrega, formaPagamento, dadosCartao) == Some(MensagensGuardas[k])
       <==> GuardasConferemAte(carrinho, clienteExiste, enderecoEntrega, formaPagamento, dadosCartao, k)
            && !ConfereGuarda(carrinho, clienteExiste, enderecoEntrega, formaPagamento, dadosCartao, k))
    ensures GuardasConferemAte(carrinho, clienteExiste, enderecoEntrega, formaPagamento, dadosCartao, 5)
            && !ConfereGuarda(carrinho, clienteExiste, enderecoEntrega, formaPagamento, dadosCartao, 5) ==>
      && Guardas(carrinho, clienteExiste, enderecoEntrega, formaPagamento, dadosCartao) == ValidarDadosCartao(dadosCartao.value)
      && Guardas(carrinho, clienteExiste, enderecoEntrega, formaPagamento, dadosCartao).Some?
    ensures Guardas(carrinho, clienteExiste, enderecoEntrega, formaPagamento, dadosCartao).None? <==>
      GuardasConferemAte(carrinho, clienteExiste, enderecoEntrega, formaPagamento, dadosCartao, 6)
  {
    var c0, c1, c2, c3, c4, c5 :=
      ConfereGuarda(carrinho, clienteExiste, enderecoEntrega, formaPagamento, dadosCartao, 0),
      ConfereGuarda(carrinho, clienteExiste, enderecoEntrega, formaPagamento, dadosCartao, 1),
      ConfereGuarda(carrinho, clienteExiste, enderecoEntrega, formaPagamento, dadosCartao, 2),
      ConfereGuarda(carrinho, clienteExiste, enderecoEntrega, formaPagamento, dadosCartao, 3),
      ConfereGuarda(carrinho, clienteExiste, enderecoEntrega, formaPagamento, dadosCartao, 4),
      ConfereGuarda(carrinho, clienteExiste, enderecoEntrega, formaPagamento, dadosCartao, 5);
    assert GuardasConferemAte(carrinho, clienteExiste, enderecoEntrega, formaPagamento, dadosCartao, 1) == c0;
    assert GuardasConferemAte(carrinho, clienteExiste, enderecoEntrega, formaPagamento, dadosCartao, 2) == (c0 && c1);
    assert GuardasConferemAte(carrinho, clienteExiste, enderecoEntrega, formaPagamento, dadosCartao, 3) == (c0 && c1 && c2);
    assert GuardasConferemAte(carrinho, clienteExiste, enderecoEntrega, formaPagamento, dadosCartao, 4)
      == (c0 && c1 && c2 && c3);
    assert GuardasConferemAte(carrinho, clienteExiste, enderecoEntrega, formaPagamento, dadosCartao, 5)
      == (c0 && c1 && c2 && c3 && c4);
    assert GuardasConferemAte(carrinho, clienteExiste, enderecoEntrega, formaPagamento, dadosCartao, 6)
      == (c0 && c1 && c2 && c3 && c4 && c5);
    MensagensDistintas();
  }

  /** No two guard messages are equal, and none is a card message. */
  lemma MensagensDistintas()
    ensures forall i, j :: 0 <= i < j < |MensagensGuardas| ==> MensagensGuardas[i] != MensagensGuardas[j]
    ensures forall i :: 0 <= i < |MensagensGuardas| ==> MensagensGuardas[i] !in MensagensCartao
  {
  }

  /**
   * The order `criarPedido` saves: numbered, owned by the customer,
   * awaiting payment (created and updated `agora`), with the given items
   * and subtotal, the shipping fee (0 when null) and their sum as total.
   */
  function PedidoCriado(novoId: string, numero: int, clienteId: string, endereco: Endereco, formaPagamento: string,
                        dadosCartao: Option<DadosCartao>, frete: Option<real>, itens: seq<ItemPedido>, subtotal: real,
                        agora: Instante): (p: Pedido)
    ensures p.id == novoId && p.numeroPedido == Some(numero) && p.clienteId == Some(clienteId)
    ensures p.enderecoEntrega == Some(endereco) && p.formaPagamento == Some(formaPagamento)
    ensures p.dadosCartao == dadosCartao && p.status == Some(AGUARDANDO_PAGAMENTO)
    ensures p.dataCriacao == agora && p.dataUltimaAtualizacao == agora && p.itens == Some(itens)
    ensures p.subtotal == Some(subtotal) && p.frete == Some(frete.GetOr(0.0)) && p.total == Some(subtotal + frete.GetOr(0.0))
  {
    Pedido(novoId, Some(numero), Some(clienteId), Some(itens), Some(endereco), Some(formaPagamento), dadosCartao,
           Some(subtotal), Some(frete.GetOr(0.0)), Some(subtotal + frete.GetOr(0.0)), Some(AGUARDANDO_PAGAMENTO),
           agora, agora)
  }

  /** The order `criarPedido` fills in field by field is the one `PedidoCriado` describes. */
  lemma PedidoMontado(novoId: string, numero: int, clienteId: string, enderecoEntrega: Option<Endereco>,
                      formaPagamento: Option<string>, dadosCartao: Option<DadosCartao>, frete: Option<real>,
                      itens: seq<ItemPedido>, subtotal: real, agora: Instante)
    requires enderecoEntrega.Some? && formaPagamento.Some?
    ensures
      var inicial := Pedidos.Novo(novoId, agora).(numeroPedido := Some(numero), clienteId := Some(clienteId),
                       enderecoEntrega := enderecoEntrega, formaPagamento := formaPagamento, dadosCartao := dadosCartao);
      var aguardando := SetStatus(inicial, Some(AGUARDANDO_PAGAMENTO), agora).(itens := Some(itens));
      aguardando.(subtotal := Some(subtotal), frete := Some(frete.GetOr(0.0)), total := Some(subtotal + frete.GetOr(0.0)))
        == PedidoCriado(novoId, numero, clienteId, enderecoEntrega.value, formaPagamento.value, dadosCartao, frete, itens,
                        subtotal, agora)
  {
  }

  // ---------------------------------------------------------------- the service

  class PedidoService {
    const pedidoRepo: PedidoRepository
    const produtoRepo: ProdutoRepository
    const clienteRepo: ClienteRepository

    constructor (pedidoRepo: PedidoRepository, produtoRepo: ProdutoRepository, clienteRepo: ClienteRepository)
      ensures this.pedidoRepo == pedidoRepo && this.produtoRepo == produtoRepo && this.clienteRepo == clienteRepo
    {
      this.pedidoRepo := pedidoRepo;
      this.produtoRepo := produtoRepo;
      this.clienteRepo := clienteRepo;
    }

    /** `gerarProximoNumeroPedido`: the largest order number + 1, or 1. */
    function ProximoNumeroPedido(): (n: int)
      reads pedidoRepo
      ensures forall p :: p in pedidoRepo.pedidos && p.numeroPedido.Some? ==> p.numeroPedido.value < n
      ensures (forall p :: p in pedidoRepo.pedidos ==> p.numeroPedido.None?) ==> n == 1
    {
      Proximo(pedidoRepo.Numeros())
    }

    /**
     * `criarPedido`: the guards, then the walk over the cart; the order is
     * saved only when no product is short of stock. The stock is read,
     * never changed.
     */
    method CriarPedido(carrinho: Option<map<int, int>>, clienteId: string, enderecoEntrega: Option<Endereco>,
                       formaPagamento: Option<string>, dadosCartao: Option<DadosCartao>, frete: Option<real>,
                       novoId: string, agora: Instante) returns (r: string)
      modifies pedidoRepo
      ensures produtoRepo.produtos == old(produtoRepo.produtos)
      ensures var g := Guardas(carrinho, clienteRepo.FindById(clienteId).Some?, enderecoEntrega, formaPagamento, dadosCartao);
        g.Some? ==> r == g.value && pedidoRepo.pedidos == old(pedidoRepo.pedidos)
      ensures (Guardas(carrinho, clienteRepo.FindById(clienteId).Some?, enderecoEntrega, formaPagamento, dadosCartao).None?
        && FaltaEstoque(produtoRepo.produtos, carrinho.value)) ==>
          && pedidoRepo.pedidos == old(pedidoRepo.pedidos)
          && exists id :: SemEstoque(produtoRepo.produtos, carrinho.value, id)
               && r == MsgSemEstoque(ProdutoPorSequencial(produtoRepo.produtos, id).value.nome)
      ensures (Guardas(carrinho, clienteRepo.FindById(clienteId).Some?, enderecoEntrega, formaPagamento, dadosCartao).None?
        && !FaltaEstoque(produtoRepo.produtos, carrinho.value)) ==>
          && r == PEDIDO_CRIADO
          && exists itens :: ItensDoCarrinho(itens, produtoRepo.produtos, carrinho.value)
               && pedidoRepo.pedidos == Salvar(old(pedidoRepo.pedidos),
                    PedidoCriado(novoId, old(ProximoNumeroPedido()), clienteId, enderecoEntrega.value, formaPagamento.value,
                                 dadosCartao, frete, itens, Subtotal(produtoRepo.produtos, carrinho.value), agora), IdPedido)
    {
      var g := Guardas(carrinho, clienteRepo.FindById(clienteId).Some?, enderecoEntrega, formaPagamento, dadosCartao);
      if g.Some? {
        return g.value;
      }
      var numero := ProximoNumeroPedido();
      var pedido := Pedidos.Novo(novoId, agora);
      pedido := pedido.(numeroPedido := Some(numero), clienteId := Some(clienteId),
                        enderecoEntrega := enderecoEntrega, formaPagamento := formaPagamento,
                        dadosCartao := dadosCartao);
      pedido := SetStatus(pedido, Some(AGUARDANDO_PAGAMENTO), agora);
      var percurso := PercorrerCarrinho(produtoRepo.produtos, carrinho.value);
      if percurso.Falta? {
        return MsgSemEstoque(percurso.nome);
      }
      // the walk appends each item to the order's empty list
      pedido := pedido.(itens := Some(percurso.itens));
      var subtotal := percurso.subtotal;
      pedido := pedido.(subtotal := Some(subtotal), frete := Some(frete.GetOr(0.0)), total := Some(subtotal + frete.GetOr(0.0)));
      PedidoMontado(novoId, numero, clienteId, enderecoEntrega, formaPagamento, dadosCartao, frete, percurso.itens,
                    subtotal, agora);
      ghost var antes := pedidoRepo.pedidos;
      pedidoRepo.Save(pedido);
      assert ItensDoCarrinho(percurso.itens, produtoRepo.produtos, carrinho.value)
        && pedidoRepo.pedidos == Salvar(antes, pedido, IdPedido);
      return PEDIDO_CRIADO;
    }

    /**
     * `atualizarStatusPedido`: an unknown order is reported before the
     * status is looked at; only the six working statuses are stored.
     */
    method AtualizarStatusPedido(pedidoId: string, novoStatus: Option<string>, agora: Instante) returns (r: string)
      modifies pedidoRepo
      ensures old(pedidoRepo.FindById(pedidoId)).None? ==> r == PEDIDO_NAO_ENCONTRADO
      ensures old(pedidoRepo.FindById(pedidoId)).Some? && !StatusValido(novoStatus) ==> r == STATUS_INVALIDO
      ensures r == STATUS_ATUALIZADO <==> old(pedidoRepo.FindById(pedidoId)).Some? && StatusValido(novoStatus)
      ensures r == STATUS_ATUALIZADO ==>
        pedidoRepo.pedidos == Salvar(old(pedidoRepo.pedidos), SetStatus(old(pedidoRepo.FindById(pedidoId)).value, novoStatus, agora), IdPedido)
      ensures r != STATUS_ATUALIZADO ==> pedidoRepo.pedidos == old(pedidoRepo.pedidos)
    {
      var encontrado := pedidoRepo.FindById(pedidoId);
      if encontrado.None? {
        return PEDIDO_NAO_ENCONTRADO;
      }
      if !StatusValido(novoStatus) {
        return STATUS_INVALIDO;
      }
      pedidoRepo.Save(SetStatus(encontrado.value, novoStatus, agora));
      return STATUS_ATUALIZADO;
    }
  }
}
