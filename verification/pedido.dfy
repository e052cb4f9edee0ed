/** Orders, their line items and the card data captured at checkout. */
module Pedidos {
  import opened Wrappers
  import opened Enderecos
  import opened Tempo

  /** A line item: a snapshot of the product at order time. */
  datatype ItemPedido = ItemPedido(
    produtoSequencialId: Option<int>,
    nomeProduto: string,
    quantidade: int,
    precoUnitario: real,
    total: real)

  /** Card data as typed by the customer (nothing here is checked). */
  datatype DadosCartao = DadosCartao(
    numeroCartao: Option<string>,
    codigoVerificador: Option<string>,
    nomeCompleto: Option<string>,
    dataVencimento: Option<string>,
    quantidadeParcelas: Option<int>)

  datatype Pedido = Pedido(
    id: string,
    numeroPedido: Option<int>,
    clienteId: Option<string>,
    itens: Option<seq<ItemPedido>>,
    enderecoEntrega: Option<Endereco>,
    formaPagamento: Option<string>,
    dadosCartao: Option<DadosCartao>,
    subtotal: Option<real>,
    frete: Option<real>,
    total: Option<real>,
    status: Option<string>,
    dataCriacao: Instante,
    dataUltimaAtualizacao: Instante)

  /** `new Pedido()`: an empty item list, both timestamps set to now, everything else null. */
  function Novo(novoId: string, agora: Instante): (p: Pedido)
    ensures p.id == novoId && p.itens == Some([]) && p.status.None?
    ensures p.dataCriacao == agora && p.dataUltimaAtualizacao == agora
    ensures p.numeroPedido.None? && p.clienteId.None? && p.subtotal.None? && p.total.None?
  {
    Pedido(novoId, None, None, Some([]), None, None, None, None, None, None, None, agora, agora)
  }

  /** The item list, with null read as empty. */
  function Itens(p: Pedido): seq<ItemPedido> {
    p.itens.GetOr([])
  }

  /** `adicionarItem`: appends, creating the list when it is null. */
  function AdicionarItem(p: Pedido, item: ItemPedido): (r: Pedido)
    ensures r.itens.Some? && |Itens(r)| == |Itens(p)| + 1
    ensures Itens(r)[..|Itens(p)|] == Itens(p) && Itens(r)[|Itens(p)|] == item
    ensures r.(itens := p.itens) == p
  {
    p.(itens := Some(Itens(p) + [item]))
  }

  /** `setStatus`: stores the value verbatim (no check) and refreshes the update time. */
  function SetStatus(p: Pedido, status: Option<string>, agora: Instante): (r: Pedido)
    ensures r.status == status && r.dataUltimaAtualizacao == agora
    ensures r.(status := p.status, dataUltimaAtualizacao := p.dataUltimaAtualizacao) == p
  {
    p.(status := status, dataUltimaAtualizacao := agora)
  }

  const AGUARDANDO_PAGAMENTO := "AGUARDANDO_PAGAMENTO"
  const PAGAMENTO_REJEITADO := "PAGAMENTO_REJEITADO"
  const PAGAMENTO_COM_SUCESSO := "PAGAMENTO_COM_SUCESSO"
  const AGUARDANDO_RETIRADA := "AGUARDANDO_RETIRADA"
  const EM_TRANSITO := "EM_TRANSITO"
  const ENTREGUE := "ENTREGUE"
  const CANCELADO := "CANCELADO"

  /** The seven status codes that have a display label. */
  const CodigosComRotulo: seq<string> :=
    [AGUARDANDO_PAGAMENTO, PAGAMENTO_REJEITADO, PAGAMENTO_COM_SUCESSO, AGUARDANDO_RETIRADA,
     EM_TRANSITO, ENTREGUE, CANCELADO]

  const Rotulos: seq<string> :=
    ["Aguardando Pagamento", "Pagamento Rejeitado", "Pagamento com Sucesso", "Aguardando Retirada",
     "Em Trânsito", "Entregue", "Cancelado"]

  /**
   * `getStatusTexto`: the label of a known code, any other string unchanged;
   * the `switch` on a null status throws.
   */
  function StatusTexto(p: Pedido): (r: Checked<string>)
    ensures p.status.None? <==> r.Throws?
    ensures forall i :: 0 <= i < |CodigosComRotulo| && p.status == Some(CodigosComRotulo[i]) ==> r == Returns(Rotulos[i])
    ensures p.status.Some? && p.status.value !in CodigosComRotulo ==> r == Returns(p.status.value)
  {
    match p.status
    case None => Throws("NullPointerException")
    case Some(s) =>
      Returns(
        if s == AGUARDANDO_PAGAMENTO then "Aguardando Pagamento"
        else if s == PAGAMENTO_REJEITADO then "Pagamento Rejeitado"
        else if s == PAGAMENTO_COM_SUCESSO then "Pagamento com Sucesso"
        else if s == AGUARDANDO_RETIRADA then "Aguardando Retirada"
        else if s == EM_TRANSITO then "Em Trânsito"
        else if s == ENTREGUE then "Entregue"
        else if s == CANCELADO then "Cancelado"
        else s)
  }

  /** Distinct codes get distinct labels, and no label is itself a code. */
  lemma RotulosDistintos()
    ensures forall i, j :: 0 <= i < j < |Rotulos| ==> Rotulos[i] != Rotulos[j]
    ensures forall i, j :: 0 <= i < |Rotulos| && 0 <= j < |CodigosComRotulo| ==> Rotulos[i] != CodigosComRotulo[j]
  {
  }

  /**
   * `getNumeroCartaoMascarado`: "****" for a null or short number, otherwise
   * three masked groups and the last four characters.
   */
  function NumeroCartaoMascarado(d: DadosCartao): (r: string)
    ensures d.numeroCartao.None? || |d.numeroCartao.value| < 4 ==> r == "****"
    ensures d.numeroCartao.Some? && |d.numeroCartao.value| >= 4 ==>
      |r| == 19 && r[..15] == "**** **** **** " && r[15..] == d.numeroCartao.value[|d.numeroCartao.value| - 4..]
  {
    match d.numeroCartao
    case None => "****"
    case Some(n) => if |n| < 4 then "****" else "**** **** **** " + n[|n| - 4..]
  }

  /** The mask reveals nothing but the last four characters: numbers that share them mask alike. */
  lemma MascaraSoDependeDoFinal(d1: DadosCartao, d2: DadosCartao)
    requires d1.numeroCartao.Some? && d2.numeroCartao.Some?
    requires |d1.numeroCartao.value| >= 4 && |d2.numeroCartao.value| >= 4
    requires d1.numeroCartao.value[|d1.numeroCartao.value| - 4..] == d2.numeroCartao.value[|d2.numeroCartao.value| - 4..]
    ensures NumeroCartaoMascarado(d1) == NumeroCartaoMascarado(d2)
  {
  }
}
