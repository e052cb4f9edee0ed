/**
 * The storefront: the session cart (product sequential id ↦ quantity) and
 * its operations, the item count, the cart page's totals with its default
 * shipping fee, and the image chosen to show each product.
 */
module LojaControle {
  import opened Wrappers
  import opened Produtos
  import opened Somas
  import opened Repositorios
  import opened Sessoes
  import opened PedidoServico
  import ProdutoServico

  const PLACEHOLDER := "https://via.placeholder.com/300x300?text=Sem+Imagem"
  const PARA_LOJA := "redirect:/loja"
  const PARA_CARRINHO := "redirect:/loja/carrinho"

  /** The shipping options of the cart page; the first is the default. */
  const OpcoesFreteValores: seq<real> := [10.0, 20.0, 30.0]
  const OpcoesFreteNomes: seq<string> :=
    ["Frete Econômico (15-20 dias)", "Frete Normal (7-10 dias)", "Frete Expresso (2-3 dias)"]

  // ---------------------------------------------------------------- the cart map

  /** The quantity of `id` in the cart, 0 when absent (`getOrDefault(id, 0)`). */
  function Quantidade(c: map<int, int>, id: int): int {
    if id in c then c[id] else 0
  }

  /** Every stored quantity is at least 1. */
  predicate Positivas(c: map<int, int>) {
    forall id :: id in c ==> c[id] >= 1
  }

  /** Add to cart / increase: one more of `id`; every other entry as it was. */
  function Incrementado(c: map<int, int>, id: int): (r: map<int, int>)
    ensures r.Keys == c.Keys + {id} && r[id] == Quantidade(c, id) + 1
    ensures forall k :: k in c && k != id ==> r[k] == c[k]
  {
    c[id := Quantidade(c, id) + 1]
  }

  /** Decrease: a quantity above 1 goes down by one, anything else removes the entry. */
  function Decrementado(c: map<int, int>, id: int): (r: map<int, int>)
    ensures Quantidade(c, id) > 1 ==> id in r && r[id] == c[id] - 1
    ensures Quantidade(c, id) <= 1 ==> id !in r
    ensures r.Keys - {id} == c.Keys - {id}
    ensures forall k :: k in c && k != id ==> k in r && r[k] == c[k]
  {
    var q := Quantidade(c, id);
    if q > 1 then c[id := q - 1] else c - {id}
  }

  /** Remove: the entry goes; every other entry as it was. */
  function Removido(c: map<int, int>, id: int): (r: map<int, int>)
    ensures id !in r && r.Keys == c.Keys - {id}
    ensures forall k :: k in r ==> r[k] == c[k]
  {
    c - {id}
  }

  /** Removing twice is removing once. */
  lemma RemovidoIdempotente(c: map<int, int>, id: int)
    ensures Removido(Removido(c, id), id) == Removido(c, id)
  {
    assert Removido(Removido(c, id), id).Keys == Removido(c, id).Keys;
  }

  /** A decrease undoes an increase on a cart whose quantities are all positive. */
  lemma DecrementoDesfazIncremento(c: map<int, int>, id: int)
    requires Positivas(c)
    ensures Decrementado(Incrementado(c, id), id) == c
  {
    var r := Decrementado(Incrementado(c, id), id);
    if id in c {
      assert r.Keys == c.Keys;
    } else {
      assert r.Keys == c.Keys;
    }
  }

  /** Starting from positive quantities, every cart operation keeps them positive. */
  lemma OperacoesMantemPositivas(c: map<int, int>, id: int)
    requires Positivas(c)
    ensures Positivas(Incrementado(c, id)) && Positivas(Decrementado(c, id)) && Positivas(Removido(c, id))
  {
    assert Positivas(Incrementado(c, id)) by {
      forall k | k in Incrementado(c, id) ensures Incrementado(c, id)[k] >= 1 {
        if k != id { assert k in c; }
      }
    }
    assert Positivas(Decrementado(c, id)) by {
      forall k | k in Decrementado(c, id) ensures Decrementado(c, id)[k] >= 1 {
        if k != id { assert k in c; }
      }
    }
  }

  /** The item count goes up by one on an increase. */
  lemma ContagemIncremento(c: map<int, int>, id: int)
    ensures SomaQuantidades(Incrementado(c, id)) == SomaQuantidades(c) + 1
  {
    SomaQuantidadesAtualiza(c, id, Quantidade(c, id) + 1);
  }

  /** On a cart of positive quantities the item count goes down by one on a decrease of an entry present. */
  lemma ContagemDecremento(c: map<int, int>, id: int)
    requires Positivas(c)
    ensures SomaQuantidades(Decrementado(c, id)) == SomaQuantidades(c) - (if id in c then 1 else 0)
  {
    if Quantidade(c, id) > 1 {
      SomaQuantidadesAtualiza(c, id, c[id] - 1);
    } else {
      SomaQuantidadesRemove(c, id);
    }
  }

  /** The item count loses the whole quantity of a removed entry. */
  lemma ContagemRemocao(c: map<int, int>, id: int)
    ensures SomaQuantidades(Removido(c, id)) == SomaQuantidades(c) - Quantidade(c, id)
  {
    SomaQuantidadesRemove(c, id);
  }

  /** `getTotalItensCarrinho`'s stream sum over the quantities, in the map's own order. */
  method ContarItens(c: map<int, int>) returns (n: int)
    ensures n == SomaQuantidades(c)
    ensures Positivas(c) ==> n >= |c|
  {
    n := 0;
    var restantes := c;
    while restantes != map[]
      invariant forall id :: id in restantes ==> id in c && restantes[id] == c[id]
      invariant n + SomaQuantidades(restantes) == SomaQuantidades(c)
      decreases |restantes|
    {
      var id :| id in restantes;
      SomaQuantidadesSem(restantes, id);
      n := n + restantes[id];
      restantes := restantes - {id};
    }
    if Positivas(c) {
      SomaQuantidadesMinima(c);
    }
  }

  // ---------------------------------------------------------------- product images

  /**
   * The image shown for a product: the path of its principal image, else
   * of its first image, else the placeholder. A product without a sequential
   * id matches no image.
   */
  function ImagemDoProduto(imagens: seq<ProdutoImagem>, produtoSequencialId: Option<int>): (url: string)
    ensures produtoSequencialId.None? ==> url == PLACEHOLDER
    ensures produtoSequencialId.Some? && (exists i :: i in imagens && i.produtoSequencialId == produtoSequencialId.value
                                                      && i.imagemPrincipal) ==>
      exists i :: i in imagens && i.produtoSequencialId == produtoSequencialId.value && i.imagemPrincipal
                  && url == i.caminhoArquivo
    ensures produtoSequencialId.Some? && (forall i :: i in imagens && i.produtoSequencialId == produtoSequencialId.value
                                                      ==> !i.imagemPrincipal) ==>
      url == (if DoProduto(imagens, produtoSequencialId.value) == [] then PLACEHOLDER
              else DoProduto(imagens, produtoSequencialId.value)[0].caminhoArquivo)
  {
    if produtoSequencialId.None? then PLACEHOLDER
    else
      var id := produtoSequencialId.value;
      match Primeiro(imagens, (i: ProdutoImagem) => i.produtoSequencialId == id && i.imagemPrincipal)
      case Some(k) => imagens[k].caminhoArquivo
      case None =>
        var doProduto := DoProduto(imagens, id);
        if doProduto == [] then PLACEHOLDER else doProduto[0].caminhoArquivo
  }

  /**
   * After a principal upload the storefront shows the new image: the
   * product service's flag clearing leaves it the only principal image.
   */
  lemma VitrineMostraNovaPrincipal(s: seq<ProdutoImagem>, nova: ProdutoImagem)
    requires forall x :: x in s ==> x.id != nova.id
    requires nova.imagemPrincipal
    ensures ImagemDoProduto(Salvar(ProdutoServico.SemPrincipal(s, nova.produtoSequencialId), nova, IdImagem), Some(nova.produtoSequencialId))
         == nova.caminhoArquivo
  {
    ProdutoServico.UmaSoPrincipal(s, nova);
    var r := Salvar(ProdutoServico.SemPrincipal(s, nova.produtoSequencialId), nova, IdImagem);
    assert r[|s|] == nova;
    var k := Primeiro(r, (i: ProdutoImagem) => i.produtoSequencialId == nova.produtoSequencialId && i.imagemPrincipal);
    assert k.Some? && k.value == |s|;
  }

  // ---------------------------------------------------------------- the cart page

  /** A line of the cart page: the product, its quantity, price × quantity and its image. */
  datatype ItemCarrinho = ItemCarrinho(produto: Produto, quantidade: int, total: real, imagemUrl: string)

  function ItemCarrinhoDe(p: Produto, quantidade: int, imagens: seq<ProdutoImagem>): (it: ItemCarrinho)
    ensures it.produto == p && it.quantidade == quantidade && it.total == ItemDe(p, quantidade).total
    ensures it.imagemUrl == ImagemDoProduto(imagens, p.sequencialId)
  {
    ItemCarrinho(p, quantidade, p.preco * quantidade as real, ImagemDoProduto(imagens, p.sequencialId))
  }

  /**
   * `itens` are the lines made so far from the entries of `carrinho` not in
   * `pendentes`: one per such entry whose product exists, none twice.
   */
  predicate LinhasParciais(itens: seq<ItemCarrinho>, produtos: seq<Produto>, imagens: seq<ProdutoImagem>,
                           carrinho: map<int, int>, pendentes: set<int>) {
    LinhasSemRepeticao(itens) && LinhasFeitas(itens, produtos, imagens, carrinho, pendentes)
    && LinhasCobrem(itens, produtos, carrinho, pendentes)
  }

  /** No product has two lines. */
  predicate LinhasSemRepeticao(itens: seq<ItemCarrinho>) {
    forall i, j :: 0 <= i < j < |itens| ==> itens[i].produto.sequencialId != itens[j].produto.sequencialId
  }

  /** Each line shows an existing product of an entry already walked. */
  predicate LinhasFeitas(itens: seq<ItemCarrinho>, produtos: seq<Produto>, imagens: seq<ProdutoImagem>,
                         carrinho: map<int, int>, pendentes: set<int>) {
    forall i :: 0 <= i < |itens| ==>
      && itens[i].produto.sequencialId.Some?
      && itens[i].produto.sequencialId.value in carrinho && itens[i].produto.sequencialId.value !in pendentes
      && ProdutoPorSequencial(produtos, itens[i].produto.sequencialId.value) == Some(itens[i].produto)
      && itens[i] == ItemCarrinhoDe(itens[i].produto, carrinho[itens[i].produto.sequencialId.value], imagens)
  }

  /** Each walked entry whose product exists has a line. */
  predicate LinhasCobrem(itens: seq<ItemCarrinho>, produtos: seq<Produto>, carrinho: map<int, int>, pendentes: set<int>) {
    forall id :: id in carrinho && id !in pendentes && ProdutoPorSequencial(produtos, id).Some? ==>
      exists i :: 0 <= i < |itens| && itens[i].produto.sequencialId == Some(id)
  }

  lemma LinhasPasso(itens: seq<ItemCarrinho>, produtos: seq<Produto>, imagens: seq<ProdutoImagem>,
                    carrinho: map<int, int>, pendentes: set<int>, id: int)
    requires LinhasParciais(itens, produtos, imagens, carrinho, pendentes)
    requires id in pendentes && id in carrinho && ProdutoPorSequencial(produtos, id).Some?
    ensures LinhasParciais(itens + [ItemCarrinhoDe(ProdutoPorSequencial(produtos, id).value, carrinho[id], imagens)],
                           produtos, imagens, carrinho, pendentes - {id})
  {
    var linha := ItemCarrinhoDe(ProdutoPorSequencial(produtos, id).value, carrinho[id], imagens);
    LinhasPassoSemRepeticao(itens, produtos, imagens, carrinho, pendentes, id);
    LinhasPassoFeitas(itens, produtos, imagens, carrinho, pendentes, id);
    LinhasPassoCobrem(itens, linha, produtos, carrinho, pendentes, id);
  }

  lemma LinhasPassoSemRepeticao(itens: seq<ItemCarrinho>, produtos: seq<Produto>, imagens: seq<ProdutoImagem>,
                                carrinho: map<int, int>, pendentes: set<int>, id: int)
    requires LinhasSemRepeticao(itens) && LinhasFeitas(itens, produtos, imagens, carrinho, pendentes)
    requires id in pendentes && id in carrinho && ProdutoPorSequencial(produtos, id).Some?
    ensures LinhasSemRepeticao(itens + [ItemCarrinhoDe(ProdutoPorSequencial(produtos, id).value, carrinho[id], imagens)])
  {
    var novos := itens + [ItemCarrinhoDe(ProdutoPorSequencial(produtos, id).value, carrinho[id], imagens)];
    forall i, j | 0 <= i < j < |novos|
      ensures novos[i].produto.sequencialId != novos[j].produto.sequencialId
    {
      assert novos[i] == itens[i];
      if j < |itens| {
        assert novos[j] == itens[j];
      }
    }
  }

  lemma LinhasPassoFeitas(itens: seq<ItemCarrinho>, produtos: seq<Produto>, imagens: seq<ProdutoImagem>,
                          carrinho: map<int, int>, pendentes: set<int>, id: int)
    requires LinhasFeitas(itens, produtos, imagens, carrinho, pendentes)
    requires id in pendentes && id in carrinho && ProdutoPorSequencial(produtos, id).Some?
    ensures LinhasFeitas(itens + [ItemCarrinhoDe(ProdutoPorSequencial(produtos, id).value, carrinho[id], imagens)],
                         produtos, imagens, carrinho, pendentes - {id})
  {
    var novos := itens + [ItemCarrinhoDe(ProdutoPorSequencial(produtos, id).value, carrinho[id], imagens)];
    forall i | 0 <= i < |novos|
      ensures novos[i].produto.sequencialId.Some? && novos[i].produto.sequencialId.value !in pendentes - {id}
    {
      if i < |itens| {
        assert novos[i] == itens[i];
      }
    }
  }

  lemma LinhasPassoCobrem(itens: seq<ItemCarrinho>, linha: ItemCarrinho, produtos: seq<Produto>,
                          carrinho: map<int, int>, pendentes: set<int>, id: int)
    requires LinhasCobrem(itens, produtos, carrinho, pendentes) && linha.produto.sequencialId == Some(id)
    ensures LinhasCobrem(itens + [linha], produtos, carrinho, pendentes - {id})
  {
    var novos := itens + [linha];
    assert novos[|itens|] == linha;
    forall k | k in carrinho && k !in pendentes - {id} && ProdutoPorSequencial(produtos, k).Some?
      ensures exists i :: 0 <= i < |novos| && novos[i].produto.sequencialId == Some(k)
    {
      if k != id {
        var i :| 0 <= i < |itens| && itens[i].produto.sequencialId == Some(k);
        assert novos[i] == itens[i];
      }
    }
  }

  /** Walking an entry whose product is missing adds no line. */
  lemma LinhasPula(itens: seq<ItemCarrinho>, produtos: seq<Produto>, imagens: seq<ProdutoImagem>,
                   carrinho: map<int, int>, pendentes: set<int>, id: int)
    requires LinhasParciais(itens, produtos, imagens, carrinho, pendentes)
    requires ProdutoPorSequencial(produtos, id).None?
    ensures LinhasParciais(itens, produtos, imagens, carrinho, pendentes - {id})
  {
    forall i | 0 <= i < |itens|
      ensures itens[i].produto.sequencialId.value !in pendentes - {id}
    {
    }
  }

  /**
   * The loop of `verCarrinho` over the cart, in the map's own order: every
   * entry whose product exists gives a line, and the subtotal is the sum of
   * price × quantity over those entries.
   */
  method MontarLinhas(produtos: seq<Produto>, imagens: seq<ProdutoImagem>, carrinho: map<int, int>)
    returns (itens: seq<ItemCarrinho>, subtotal: real)
    ensures LinhasParciais(itens, produtos, imagens, carrinho, {})
    ensures subtotal == Subtotal(produtos, carrinho)
  {
    ghost var f := (id, q) => ValorEntrada(produtos, id, q);
    itens := [];
    subtotal := 0.0;
    var restantes := carrinho;
    while restantes != map[]
      invariant restantes.Keys <= carrinho.Keys && forall id :: id in restantes ==> restantes[id] == carrinho[id]
      invariant subtotal + SomaValores(restantes, f) == SomaValores(carrinho, f)
      invariant LinhasParciais(itens, produtos, imagens, carrinho, restantes.Keys)
      decreases |restantes|
    {
      var id :| id in restantes;
      SomaValoresSem(restantes, f, id);
      var encontrado := ProdutoPorSequencial(produtos, id);
      if encontrado.Some? {
        var item := ItemCarrinhoDe(encontrado.value, restantes[id], imagens);
        LinhasPasso(itens, produtos, imagens, carrinho, restantes.Keys, id);
        itens := itens + [item];
        subtotal := subtotal + item.total;
      } else {
        LinhasPula(itens, produtos, imagens, carrinho, restantes.Keys, id);
      }
      assert (restantes - {id}).Keys == restantes.Keys - {id};
      restantes := restantes - {id};
    }
    assert restantes.Keys == {};
  }

  /** What the cart page shows. */
  datatype VistaCarrinho = VistaCarrinho(itens: seq<ItemCarrinho>, subtotal: real, frete: real, total: real,
                                         totalItens: int)

  /**
   * The active products, in store order. The storefront calls a
   * `findByStatus(true)` that the product repository does not declare;
   * this is what such a derived query returns.
   */
  function Ativos(produtos: seq<Produto>): (r: seq<Produto>)
    ensures forall p :: p in r <==> p in produtos && p.status
  {
    if produtos == [] then []
    else if produtos[0].status then [produtos[0]] + Ativos(produtos[1..])
    else Ativos(produtos[1..])
  }

  class LojaController {
    const produtoRepo: ProdutoRepository
    const imagemRepo: ProdutoImagemRepository

    constructor (produtoRepo: ProdutoRepository, imagemRepo: ProdutoImagemRepository)
      ensures this.produtoRepo == produtoRepo && this.imagemRepo == imagemRepo
    {
      this.produtoRepo := produtoRepo;
      this.imagemRepo := imagemRepo;
    }

    /** `getCarrinho`: the session cart, a new empty one being stored when there is none. */
    method ObterCarrinho(sessao: Sessao) returns (c: map<int, int>)
      modifies sessao`carrinho
      ensures c == old(sessao.carrinho).GetOr(map[]) && sessao.carrinho == Some(c)
    {
      if sessao.carrinho.None? {
        sessao.carrinho := Some(map[]);
      }
      c := sessao.carrinho.value;
    }

    /** `getTotalItensCarrinho`: the sum of the quantities (a missing cart is created empty). */
    method TotalItensCarrinho(sessao: Sessao) returns (n: int)
      modifies sessao`carrinho
      ensures sessao.carrinho == Some(old(sessao.carrinho).GetOr(map[]))
      ensures n == SomaQuantidades(sessao.carrinho.value)
    {
      var c := ObterCarrinho(sessao);
      n := ContarItens(c);
    }

    /** `adicionarAoCarrinho`: one more of the product; back to the shop only for `acao == "continuar"`. */
    method AdicionarAoCarrinho(produtoId: int, acao: string, sessao: Sessao) returns (destino: string)
      modifies sessao`carrinho
      ensures sessao.carrinho == Some(Incrementado(old(sessao.carrinho).GetOr(map[]), produtoId))
      ensures destino == (if acao == "continuar" then PARA_LOJA else PARA_CARRINHO)
    {
      var c := ObterCarrinho(sessao);
      sessao.carrinho := Some(c[produtoId := Quantidade(c, produtoId) + 1]);
      if acao == "continuar" {
        return PARA_LOJA;
      }
      return PARA_CARRINHO;
    }

    /** `aumentarQuantidade`: one more of the product. */
    method AumentarQuantidade(produtoId: int, sessao: Sessao) returns (destino: string)
      modifies sessao`carrinho
      ensures sessao.carrinho == Some(Incrementado(old(sessao.carrinho).GetOr(map[]), produtoId))
      ensures destino == PARA_CARRINHO
    {
      var c := ObterCarrinho(sessao);
      sessao.carrinho := Some(c[produtoId := Quantidade(c, produtoId) + 1]);
      return PARA_CARRINHO;
    }

    /** `diminuirQuantidade`: one fewer, or out of the cart at 1 or below. */
    method DiminuirQuantidade(produtoId: int, sessao: Sessao) returns (destino: string)
      modifies sessao`carrinho
      ensures sessao.carrinho == Some(Decrementado(old(sessao.carrinho).GetOr(map[]), produtoId))
      ensures destino == PARA_CARRINHO
    {
      var c := ObterCarrinho(sessao);
      var quantidade := Quantidade(c, produtoId);
      if quantidade > 1 {
        c := c[produtoId := quantidade - 1];
      } else {
        c := c - {produtoId};
      }
      sessao.carrinho := Some(c);
      return PARA_CARRINHO;
    }

    /** `removerProduto`: the product leaves the cart. */
    method RemoverProduto(produtoId: int, sessao: Sessao) returns (destino: string)
      modifies sessao`carrinho
      ensures sessao.carrinho == Some(Removido(old(sessao.carrinho).GetOr(map[]), produtoId))
      ensures destino == PARA_CARRINHO
    {
      var c := ObterCarrinho(sessao);
      sessao.carrinho := Some(c - {produtoId});
      return PARA_CARRINHO;
    }

    /** `calcularFrete`: stores the postal code and the chosen fee as given. */
    method CalcularFrete(cep: string, valorFrete: real, sessao: Sessao) returns (destino: string)
      modifies sessao`cep, sessao`freteEscolhido
      ensures sessao.cep == Some(cep) && sessao.freteEscolhido == Some(valorFrete)
      ensures destino == PARA_CARRINHO
    {
      sessao.cep := Some(cep);
      sessao.freteEscolhido := Some(valorFrete);
      return PARA_CARRINHO;
    }

    /**
     * `verCarrinho`: a line per entry whose product exists, the subtotal of
     * those lines, the chosen fee (10.00 when none was chosen, and then
     * stored) and their sum.
     */
    method VerCarrinho(sessao: Sessao) returns (v: VistaCarrinho)
      modifies sessao`carrinho, sessao`freteEscolhido
      ensures sessao.carrinho == Some(old(sessao.carrinho).GetOr(map[]))
      ensures LinhasParciais(v.itens, produtoRepo.produtos, imagemRepo.imagens, sessao.carrinho.value, {})
      ensures v.subtotal == Subtotal(produtoRepo.produtos, sessao.carrinho.value)
      ensures sessao.freteEscolhido == Some(old(sessao.freteEscolhido).GetOr(OpcoesFreteValores[0]))
      ensures v.frete == sessao.freteEscolhido.value && v.total == v.subtotal + v.frete
      ensures v.totalItens == SomaQuantidades(sessao.carrinho.value)
    {
      var c := ObterCarrinho(sessao);
      var itens, subtotal := MontarLinhas(produtoRepo.produtos, imagemRepo.imagens, c);
      var freteAtual := sessao.freteEscolhido;
      if freteAtual.None? {
        freteAtual := Some(OpcoesFreteValores[0]);
        sessao.freteEscolhido := freteAtual;
      }
      var totalItens := TotalItensCarrinho(sessao);
      v := VistaCarrinho(itens, subtotal, freteAtual.value, subtotal + freteAtual.value, totalItens);
    }

    /**
     * The image map of `index`: for every active product, its sequential
     * id ↦ the image the storefront shows for it.
     */
    method ImagensPrincipais() returns (m: map<Option<int>, string>)
      ensures forall p :: p in produtoRepo.produtos && p.status ==> p.sequencialId in m
      ensures forall k :: k in m ==>
        (exists p :: p in produtoRepo.produtos && p.status && p.sequencialId == k) && m[k] == ImagemDoProduto(imagemRepo.imagens, k)
    {
      var produtos := Ativos(produtoRepo.produtos);
      m := map[];
      var i := 0;
      while i < |produtos|
        invariant 0 <= i <= |produtos|
        invariant forall j :: 0 <= j < i ==> produtos[j].sequencialId in m
        invariant forall k :: k in m ==>
          (exists j :: 0 <= j < i && produtos[j].sequencialId == k) && m[k] == ImagemDoProduto(imagemRepo.imagens, k)
      {
        m := m[produtos[i].sequencialId := ImagemDoProduto(imagemRepo.imagens, produtos[i].sequencialId)];
        i := i + 1;
      }
      forall p | p in produtoRepo.produtos && p.status
        ensures p.sequencialId in m
      {
        var j :| 0 <= j < |produtos| && produtos[j] == p;
      }
      forall k | k in m
        ensures exists p :: p in produtoRepo.produtos && p.status && p.sequencialId == k
      {
        var j :| 0 <= j < |produtos| && produtos[j].sequencialId == k;
        assert produtos[j] in produtos;
      }
    }
  }
}
