/**
 * Catalogue products and their uploaded images: plain records. The fields
 * the product service always fills in (name, rating, description, price,
 * stock) are not optional here.
 */
module Produtos {
  import opened Wrappers
  import opened Tempo

  datatype Produto = Produto(
    id: string,
    sequencialId: Option<int>,
    nome: string,
    avaliacao: real,
    descricaoDetalhada: string,
    preco: real,
    quantidadeEstoque: int,
    status: bool,
    dataCriacao: Instante,
    dataUltimaAlteracao: Instante)

  /** The five-argument constructor: active, created and last changed now, no sequential id yet. */
  function Novo(novoId: string, nome: string, avaliacao: real, descricaoDetalhada: string, preco: real,
                quantidadeEstoque: int, agora: Instante): (p: Produto)
    ensures p.status && p.sequencialId.None? && p.id == novoId
    ensures p.dataCriacao == agora && p.dataUltimaAlteracao == agora
    ensures p.nome == nome && p.avaliacao == avaliacao && p.descricaoDetalhada == descricaoDetalhada
    ensures p.preco == preco && p.quantidadeEstoque == quantidadeEstoque
  {
    Produto(novoId, None, nome, avaliacao, descricaoDetalhada, preco, quantidadeEstoque, true, agora, agora)
  }

  datatype ProdutoImagem = ProdutoImagem(
    id: string,
    produtoSequencialId: int,
    nomeArquivoOriginal: string,
    nomeArquivoSalvo: string,
    caminhoArquivo: string,
    imagemPrincipal: bool,
    dataUpload: Instante)

  /** The four-argument constructor: not the principal image, uploaded now. */
  function NovaImagem(novoId: string, produtoSequencialId: int, nomeArquivoOriginal: string,
                      nomeArquivoSalvo: string, caminhoArquivo: string, agora: Instante): (i: ProdutoImagem)
    ensures !i.imagemPrincipal && i.id == novoId && i.dataUpload == agora
    ensures i.produtoSequencialId == produtoSequencialId && i.caminhoArquivo == caminhoArquivo
    ensures i.nomeArquivoOriginal == nomeArquivoOriginal && i.nomeArquivoSalvo == nomeArquivoSalvo
  {
    ProdutoImagem(novoId, produtoSequencialId, nomeArquivoOriginal, nomeArquivoSalvo, caminhoArquivo, false, agora)
  }
}
