/** The customer document and its small behaviours over the delivery-address list. */
module Clientes {
  import opened Wrappers
  import opened Enderecos
  import opened Tempo

  /**
   * A customer. `id` is the identifier the store assigns; the delivery list
   * may be null in a stored document.
   */
  datatype Cliente = Cliente(
    id: string,
    email: Option<string>,
    cpf: Option<string>,
    nome: Option<string>,
    dataNascimento: Option<Data>,
    genero: Option<string>,
    senha: Option<string>,
    enderecoFaturamento: Option<Endereco>,
    enderecosEntrega: Option<seq<Endereco>>,
    status: bool)

  /** The no-argument constructor: active, with an empty delivery list. */
  function Vazio(novoId: string): (c: Cliente)
    ensures c.id == novoId && c.status && c.enderecosEntrega == Some([])
    ensures c.nome.None? && c.cpf.None? && c.email.None? && c.enderecoFaturamento.None?
  {
    Cliente(novoId, None, None, None, None, None, None, None, Some([]), true)
  }

  /** The seven-argument constructor: the given fields, active, with an empty delivery list. */
  function Novo(novoId: string, nome: string, cpf: string, email: string, dataNascimento: Data,
                genero: string, senha: string, enderecoFaturamento: Endereco): (c: Cliente)
    ensures c.id == novoId && c.status && c.enderecosEntrega == Some([])
    ensures c.nome == Some(nome) && c.cpf == Some(cpf) && c.email == Some(email)
    ensures c.dataNascimento == Some(dataNascimento) && c.genero == Some(genero)
    ensures c.senha == Some(senha) && c.enderecoFaturamento == Some(enderecoFaturamento)
  {
    Cliente(novoId, Some(email), Some(cpf), Some(nome), Some(dataNascimento), Some(genero), Some(senha),
            Some(enderecoFaturamento), Some([]), true)
  }

  /** The delivery list, with null read as empty. */
  function Entregas(c: Cliente): seq<Endereco> {
    c.enderecosEntrega.GetOr([])
  }

  /** `adicionarEnderecoEntrega`: appends, creating the list when it is null. */
  function AdicionarEnderecoEntrega(c: Cliente, e: Endereco): (r: Cliente)
    ensures r.enderecosEntrega.Some?
    ensures |Entregas(r)| == |Entregas(c)| + 1
    ensures Entregas(r)[..|Entregas(c)|] == Entregas(c) && Entregas(r)[|Entregas(c)|] == e
    ensures r.(enderecosEntrega := c.enderecosEntrega) == c
  {
    c.(enderecosEntrega := Some(Entregas(c) + [e]))
  }

  /** Position of the first address flagged as default, if any. */
  function PrimeiroPadrao(s: seq<Endereco>): (r: Option<nat>)
    ensures r.Some? ==> r.value < |s| && s[r.value].padrao && forall j :: 0 <= j < r.value ==> !s[j].padrao
    ensures r.None? ==> forall j :: 0 <= j < |s| ==> !s[j].padrao
  {
    if s == [] then None
    else if s[0].padrao then Some(0)
    else match PrimeiroPadrao(s[1..])
      case None => None
      case Some(k) => Some(k + 1)
  }

  /**
   * `getEnderecoPadraoEntrega`: null for a null or empty list, else the
   * first default address, else the first address.
   */
  function EnderecoPadraoEntrega(c: Cliente): (r: Option<Endereco>)
    ensures r.None? <==> Entregas(c) == []
    ensures r.Some? ==> r.value in Entregas(c)
    ensures r.Some? && !r.value.padrao ==> r.value == Entregas(c)[0] && forall e :: e in Entregas(c) ==> !e.padrao
    ensures (exists e :: e in Entregas(c) && e.padrao) ==> r.Some? && r.value.padrao
  {
    var s := Entregas(c);
    if s == [] then None
    else match PrimeiroPadrao(s)
      case Some(k) => Some(s[k])
      case None => Some(s[0])
  }

  /** Each address flagged exactly when its id is `enderecoId`; nothing else changes. */
  function MarcarPadrao(s: seq<Endereco>, enderecoId: string): (r: seq<Endereco>)
    ensures |r| == |s|
    ensures forall i :: 0 <= i < |s| ==> r[i] == s[i].(padrao := s[i].id == enderecoId)
  {
    seq(|s|, i requires 0 <= i < |s| => s[i].(padrao := s[i].id == enderecoId))
  }

  /** `definirEnderecoPadrao`: the `forEach` over the delivery list; a null list stays null. */
  method DefinirEnderecoPadrao(c: Cliente, enderecoId: string) returns (r: Cliente)
    ensures r.enderecosEntrega.None? <==> c.enderecosEntrega.None?
    ensures r.enderecosEntrega.Some? ==> r.enderecosEntrega.value == MarcarPadrao(Entregas(c), enderecoId)
    ensures r.(enderecosEntrega := c.enderecosEntrega) == c
  {
    if c.enderecosEntrega.None? {
      return c;
    }
    var s := c.enderecosEntrega.value;
    var i := 0;
    while i < |s|
      invariant 0 <= i <= |s| && |s| == |Entregas(c)|
      invariant forall j :: 0 <= j < i ==> s[j] == Entregas(c)[j].(padrao := Entregas(c)[j].id == enderecoId)
      invariant forall j :: i <= j < |s| ==> s[j] == Entregas(c)[j]
    {
      s := s[i := s[i].(padrao := s[i].id == enderecoId)];
      i := i + 1;
    }
    r := c.(enderecosEntrega := Some(s));
  }

  predicate IdsUnicos(s: seq<Endereco>) {
    forall i, j :: 0 <= i < j < |s| ==> s[i].id != s[j].id
  }

  predicate UnicoPadrao(s: seq<Endereco>) {
    forall i, j :: 0 <= i < |s| && 0 <= j < |s| && s[i].padrao && s[j].padrao ==> i == j
  }

  /**
   * With unique ids, marking leaves exactly one default when the id is in
   * the list (the address with that id) and none otherwise.
   */
  lemma MarcarPadraoUnico(s: seq<Endereco>, enderecoId: string)
    requires IdsUnicos(s)
    ensures UnicoPadrao(MarcarPadrao(s, enderecoId))
    ensures (exists i :: 0 <= i < |s| && s[i].id == enderecoId) <==> (exists i :: 0 <= i < |s| && MarcarPadrao(s, enderecoId)[i].padrao)
    ensures forall i :: 0 <= i < |s| ==> (MarcarPadrao(s, enderecoId)[i].padrao <==> s[i].id == enderecoId)
  {
  }
}
