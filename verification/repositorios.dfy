/**
 * The five document stores, as in-memory collections. Each repository keeps
 * its documents in a sequence in insertion order; a `findBy…` query that
 * returns one document answers the first match, and `save` replaces the
 * document with the same identifier or appends a new one. A find returns a
 * copy, so a service that changes what it found and returns without saving
 * leaves the store as it was.
 */
module Repositorios {
  import opened Wrappers
  import opened Clientes
  import opened Usuarios
  import opened Pedidos
  import opened Produtos

  /** Position of the first element of `s` that satisfies `p`. */
  function Primeiro<T>(s: seq<T>, p: T -> bool): (r: Option<nat>)
    ensures r.Some? ==> r.value < |s| && p(s[r.value]) && forall j :: 0 <= j < r.value ==> !p(s[j])
    ensures r.None? <==> forall j :: 0 <= j < |s| ==> !p(s[j])
  {
    if s == [] then None
    else if p(s[0]) then Some(0)
    else match Primeiro(s[1..], p)
      case None => None
      case Some(k) => Some(k + 1)
  }

  /** No two documents share an identifier (the store's primary key). */
  predicate IdsDistintos<T>(s: seq<T>, id: T -> string) {
    forall i, j :: 0 <= i < j < |s| ==> id(s[i]) != id(s[j])
  }

  /** `save`: replaces the document with the same identifier, or appends. */
  function Salvar<T>(s: seq<T>, x: T, id: T -> string): (r: seq<T>)
    ensures (forall j :: 0 <= j < |s| ==> id(s[j]) != id(x)) ==> r == s + [x]
    ensures PosicaoDoId(s, id(x), id).Some? ==> r == s[PosicaoDoId(s, id(x), id).value := x]
    ensures IdsDistintos(s, id) ==> IdsDistintos(r, id)
  {
    match PosicaoDoId(s, id(x), id)
    case None => s + [x]
    case Some(i) => s[i := x]
  }

  /** Position of the first document of `s` whose identifier is `chave`. */
  function PosicaoDoId<T>(s: seq<T>, chave: string, id: T -> string): (r: Option<nat>)
    ensures r.Some? ==> r.value < |s| && id(s[r.value]) == chave && forall j :: 0 <= j < r.value ==> id(s[j]) != chave
    ensures r.None? <==> forall j :: 0 <= j < |s| ==> id(s[j]) != chave
  {
    if s == [] then None
    else if id(s[0]) == chave then Some(0)
    else match PosicaoDoId(s[1..], chave, id)
      case None => None
      case Some(k) => Some(k + 1)
  }

  /** In a store without duplicate identifiers, saving replaces the document in its place. */
  lemma SalvarNoLugar<T>(s: seq<T>, i: nat, x: T, id: T -> string)
    requires i < |s| && IdsDistintos(s, id) && id(s[i]) == id(x)
    ensures Salvar(s, x, id) == s[i := x]
  {
    var k := PosicaoDoId(s, id(x), id);
    assert k.Some? && id(s[k.value]) == id(s[i]);
  }

  /** The saved document is in the store afterwards. */
  lemma SalvarContem<T>(s: seq<T>, x: T, id: T -> string)
    ensures x in Salvar(s, x, id)
  {
    match PosicaoDoId(s, id(x), id)
    case None =>
    case Some(i) => assert Salvar(s, x, id)[i] == x;
  }

  /** `deleteById`: every document with that identifier goes. */
  function Remover<T(!new)>(s: seq<T>, chave: string, id: T -> string): (r: seq<T>)
    ensures forall x :: x in r <==> x in s && id(x) != chave
    ensures |r| <= |s|
    ensures IdsDistintos(s, id) ==> IdsDistintos(r, id)
  {
    if s == [] then []
    else if id(s[0]) == chave then Remover(s[1..], chave, id)
    else [s[0]] + Remover(s[1..], chave, id)
  }

  function IdCliente(c: Cliente): string { c.id }
  function IdUsuario(u: Usuario): string { u.id }
  function IdPedido(p: Pedido): string { p.id }
  function IdProduto(p: Produto): string { p.id }
  function IdImagem(i: ProdutoImagem): string { i.id }

  class ClienteRepository {
    var clientes: seq<Cliente>

    ghost predicate Valid()
      reads this
    {
      IdsDistintos(clientes, IdCliente)
    }

    constructor ()
      ensures clientes == [] && Valid()
    {
      clientes := [];
    }

    function FindById(id: string): (r: Option<Cliente>)
      reads this
      ensures r.Some? <==> exists c :: c in clientes && c.id == id
      ensures r.Some? ==> r.value in clientes && r.value.id == id
    {
      match Primeiro(clientes, (c: Cliente) => c.id == id)
      case None => None
      case Some(i) => Some(clientes[i])
    }

    function FindByEmail(email: Option<string>): (r: Option<Cliente>)
      reads this
      ensures r.Some? <==> exists c :: c in clientes && c.email == email
      ensures r.Some? ==> r.value in clientes && r.value.email == email
    {
      match Primeiro(clientes, (c: Cliente) => c.email == email)
      case None => None
      case Some(i) => Some(clientes[i])
    }

    predicate ExistsByEmail(email: Option<string>)
      reads this
    {
      exists c :: c in clientes && c.email == email
    }

    predicate ExistsByCpf(cpf: Option<string>)
      reads this
    {
      exists c :: c in clientes && c.cpf == cpf
    }

    method Save(c: Cliente)
      modifies this
      ensures clientes == Salvar(old(clientes), c, IdCliente)
      ensures old(Valid()) ==> Valid()
    {
      clientes := Salvar(clientes, c, IdCliente);
    }

    /** Without duplicate identifiers, `findById` answers the one stored customer with that identifier. */
    lemma EncontraOUnico(c: Cliente)
      requires Valid() && c in clientes
      ensures FindById(c.id) == Some(c)
    {
      var i :| 0 <= i < |clientes| && clientes[i] == FindById(c.id).value;
      var j :| 0 <= j < |clientes| && clientes[j] == c;
      if i < j {
        assert IdCliente(clientes[i]) != IdCliente(clientes[j]);
      } else if j < i {
        assert IdCliente(clientes[j]) != IdCliente(clientes[i]);
      }
    }
  }

  class UsuarioRepository {
    var usuarios: seq<Usuario>

    ghost predicate Valid()
      reads this
    {
      IdsDistintos(usuarios, IdUsuario)
    }

    constructor ()
      ensures usuarios == [] && Valid()
    {
      usuarios := [];
    }

    function FindBySequencialId(sequencialId: Option<int>): (r: Option<Usuario>)
      reads this
      ensures r.Some? <==> exists u :: u in usuarios && u.sequencialId == sequencialId
      ensures r.Some? ==> r.value in usuarios && r.value.sequencialId == sequencialId
    {
      match Primeiro(usuarios, (u: Usuario) => u.sequencialId == sequencialId)
      case None => None
      case Some(i) => Some(usuarios[i])
    }

    function FindByEmail(email: Option<string>): (r: Option<Usuario>)
      reads this
      ensures r.Some? <==> exists u :: u in usuarios && u.email == email
      ensures r.Some? ==> r.value in usuarios && r.value.email == email
    {
      match Primeiro(usuarios, (u: Usuario) => u.email == email)
      case None => None
      case Some(i) => Some(usuarios[i])
    }

    predicate ExistsByEmail(email: Option<string>)
      reads this
    {
      exists u :: u in usuarios && u.email == email
    }

    predicate ExistsByCpf(cpf: Option<string>)
      reads this
    {
      exists u :: u in usuarios && u.cpf == cpf
    }

    /** The sequential ids of all users, in store order. */
    function SequenciaisIds(): (ids: seq<Option<int>>)
      reads this
      ensures |ids| == |usuarios| && forall i :: 0 <= i < |usuarios| ==> ids[i] == usuarios[i].sequencialId
    {
      seq(|usuarios|, i requires 0 <= i < |usuarios| reads this => usuarios[i].sequencialId)
    }

    method Save(u: Usuario)
      modifies this
      ensures usuarios == Salvar(old(usuarios), u, IdUsuario)
      ensures old(Valid()) ==> Valid()
    {
      usuarios := Salvar(usuarios, u, IdUsuario);
    }
  }

  class PedidoRepository {
    var pedidos: seq<Pedido>

    ghost predicate Valid()
      reads this
    {
      IdsDistintos(pedidos, IdPedido)
    }

    constructor ()
      ensures pedidos == [] && Valid()
    {
      pedidos := [];
    }

    function FindById(id: string): (r: Option<Pedido>)
      reads this
      ensures r.Some? <==> exists p :: p in pedidos && p.id == id
      ensures r.Some? ==> r.value in pedidos && r.value.id == id
    {
      match Primeiro(pedidos, (p: Pedido) => p.id == id)
      case None => None
      case Some(i) => Some(pedidos[i])
    }

    /** `findByNumeroPedido`: the first order with that number. */
    function FindByNumeroPedido(numero: int): (r: Option<Pedido>)
      reads this
      ensures r.Some? <==> exists p :: p in pedidos && p.numeroPedido == Some(numero)
      ensures r.Some? ==> r.value in pedidos && r.value.numeroPedido == Some(numero)
    {
      match Primeiro(pedidos, (p: Pedido) => p.numeroPedido == Some(numero))
      case None => None
      case Some(i) => Some(pedidos[i])
    }

    /** The head of `findByClienteIdOrderByDataCriacaoDesc`: a latest order of the customer. */
    function MaisRecenteDoCliente(clienteId: string): (r: Option<Pedido>)
      reads this
      ensures r.None? <==> forall p :: p in pedidos ==> p.clienteId != Some(clienteId)
      ensures r.Some? ==> r.value in pedidos && r.value.clienteId == Some(clienteId)
      ensures r.Some? ==> forall p :: p in pedidos && p.clienteId == Some(clienteId) ==> p.dataCriacao <= r.value.dataCriacao
    {
      MaisRecente(pedidos, clienteId)
    }

    /** `findAllByOrderByDataCriacaoDesc`: every stored order, the newest first. */
    function FindAllByOrderByDataCriacaoDesc(): (r: seq<Pedido>)
      reads this
      ensures DoMaisRecente(r)
      ensures multiset(r) == multiset(pedidos)
    {
      PorDataDesc(pedidos)
    }

    /** The order numbers of all orders, in store order. */
    function Numeros(): (ns: seq<Option<int>>)
      reads this
      ensures |ns| == |pedidos| && forall i :: 0 <= i < |pedidos| ==> ns[i] == pedidos[i].numeroPedido
    {
      seq(|pedidos|, i requires 0 <= i < |pedidos| reads this => pedidos[i].numeroPedido)
    }

    method Save(p: Pedido)
      modifies this
      ensures pedidos == Salvar(old(pedidos), p, IdPedido)
      ensures old(Valid()) ==> Valid()
    {
      pedidos := Salvar(pedidos, p, IdPedido);
    }
  }

  class ProdutoRepository {
    var produtos: seq<Produto>

    ghost predicate Valid()
      reads this
    {
      IdsDistintos(produtos, IdProduto)
    }

    constructor ()
      ensures produtos == [] && Valid()
    {
      produtos := [];
    }

    function FindBySequencialId(sequencialId: int): (r: Option<Produto>)
      reads this
      ensures r.Some? <==> exists p :: p in produtos && p.sequencialId == Some(sequencialId)
      ensures r.Some? ==> r.value in produtos && r.value.sequencialId == Some(sequencialId)
    {
      ProdutoPorSequencial(produtos, sequencialId)
    }

    /** The sequential ids of all products, in store order. */
    function SequenciaisIds(): (ids: seq<Option<int>>)
      reads this
      ensures |ids| == |produtos| && forall i :: 0 <= i < |produtos| ==> ids[i] == produtos[i].sequencialId
    {
      seq(|produtos|, i requires 0 <= i < |produtos| reads this => produtos[i].sequencialId)
    }

    method Save(p: Produto)
      modifies this
      ensures produtos == Salvar(old(produtos), p, IdProduto)
      ensures old(Valid()) ==> Valid()
    {
      produtos := Salvar(produtos, p, IdProduto);
    }
  }

  class ProdutoImagemRepository {
    var imagens: seq<ProdutoImagem>

    ghost predicate Valid()
      reads this
    {
      IdsDistintos(imagens, IdImagem)
    }

    constructor ()
      ensures imagens == [] && Valid()
    {
      imagens := [];
    }

    function FindById(id: string): (r: Option<ProdutoImagem>)
      reads this
      ensures r.Some? <==> exists i :: i in imagens && i.id == id
      ensures r.Some? ==> r.value in imagens && r.value.id == id
    {
      match Primeiro(imagens, (i: ProdutoImagem) => i.id == id)
      case None => None
      case Some(k) => Some(imagens[k])
    }

    /** `findByProdutoSequencialId`: the product's images, in store order. */
    function FindByProdutoSequencialId(produtoSequencialId: int): (r: seq<ProdutoImagem>)
      reads this
      ensures forall i :: i in r <==> i in imagens && i.produtoSequencialId == produtoSequencialId
    {
      DoProduto(imagens, produtoSequencialId)
    }

    /** `findByProdutoSequencialIdAndImagemPrincipal(id, true)`. */
    function FindPrincipal(produtoSequencialId: int): (r: Option<ProdutoImagem>)
      reads this
      ensures r.Some? <==> exists i :: i in imagens && i.produtoSequencialId == produtoSequencialId && i.imagemPrincipal
      ensures r.Some? ==> r.value in imagens && r.value.produtoSequencialId == produtoSequencialId && r.value.imagemPrincipal
    {
      match Primeiro(imagens, (i: ProdutoImagem) => i.produtoSequencialId == produtoSequencialId && i.imagemPrincipal)
      case None => None
      case Some(k) => Some(imagens[k])
    }

    method Save(i: ProdutoImagem)
      modifies this
      ensures imagens == Salvar(old(imagens), i, IdImagem)
      ensures old(Valid()) ==> Valid()
    {
      imagens := Salvar(imagens, i, IdImagem);
    }

    method DeleteById(id: string)
      modifies this
      ensures imagens == Remover(old(imagens), id, IdImagem)
      ensures old(Valid()) ==> Valid()
    {
      imagens := Remover(imagens, id, IdImagem);
    }
  }

  /** `findBySequencialId` on a list of products: the first with that sequential id. */
  function ProdutoPorSequencial(produtos: seq<Produto>, sequencialId: int): (r: Option<Produto>)
    ensures r.Some? <==> exists p :: p in produtos && p.sequencialId == Some(sequencialId)
    ensures r.Some? ==> r.value in produtos && r.value.sequencialId == Some(sequencialId)
  {
    match Primeiro(produtos, (p: Produto) => p.sequencialId == Some(sequencialId))
    case None => None
    case Some(i) => Some(produtos[i])
  }

  /** The images of one product, in store order. */
  function DoProduto(s: seq<ProdutoImagem>, produtoSequencialId: int): (r: seq<ProdutoImagem>)
    ensures forall i :: i in r <==> i in s && i.produtoSequencialId == produtoSequencialId
    ensures |r| <= |s|
  {
    if s == [] then []
    else if s[0].produtoSequencialId == produtoSequencialId then [s[0]] + DoProduto(s[1..], produtoSequencialId)
    else DoProduto(s[1..], produtoSequencialId)
  }

  /** An order of `clienteId` created no earlier than any other of theirs; the first such in store order. */
  function MaisRecente(pedidos: seq<Pedido>, clienteId: string): (r: Option<Pedido>)
    ensures r.None? <==> forall p :: p in pedidos ==> p.clienteId != Some(clienteId)
    ensures r.Some? ==> r.value in pedidos && r.value.clienteId == Some(clienteId)
    ensures r.Some? ==> forall p :: p in pedidos && p.clienteId == Some(clienteId) ==> p.dataCriacao <= r.value.dataCriacao
  {
    if pedidos == [] then None
    else
      var resto := MaisRecente(pedidos[1..], clienteId);
      assert forall p :: p in pedidos ==> p == pedidos[0] || p in pedidos[1..];
      if pedidos[0].clienteId == Some(clienteId) && (resto.None? || resto.value.dataCriacao <= pedidos[0].dataCriacao)
      then Some(pedidos[0])
      else resto
  }

  /** Newest first: no order is created later than one before it. */
  predicate DoMaisRecente(s: seq<Pedido>) {
    forall i, j :: 0 <= i < j < |s| ==> s[j].dataCriacao <= s[i].dataCriacao
  }

  /** Puts `p` into the newest-first sequence `s`, ahead of the orders created no later than it. */
  function InserirPorData(p: Pedido, s: seq<Pedido>): (r: seq<Pedido>)
    requires DoMaisRecente(s)
    ensures DoMaisRecente(r)
    ensures multiset(r) == multiset(s) + multiset{p}
    ensures |r| == |s| + 1 && (r[0] == p || (s != [] && r[0] == s[0]))
  {
    if s == [] || s[0].dataCriacao <= p.dataCriacao then [p] + s
    else
      var resto := InserirPorData(p, s[1..]);
      assert s == [s[0]] + s[1..];
      assert resto[0].dataCriacao <= s[0].dataCriacao;
      [s[0]] + resto
  }

  /** The orders sorted from the newest to the oldest creation instant. */
  function PorDataDesc(s: seq<Pedido>): (r: seq<Pedido>)
    ensures DoMaisRecente(r)
    ensures multiset(r) == multiset(s)
  {
    if s == [] then []
    else
      assert s == [s[0]] + s[1..];
      InserirPorData(s[0], PorDataDesc(s[1..]))
  }
}
