/**
 * The HTTP session of a storefront visitor: the attributes the storefront
 * and customer controllers read, set and remove. An absent attribute (never
 * set, removed, or set to null) is `None`.
 */
module Sessoes {
  import opened Wrappers
  import opened Enderecos
  import opened Clientes
  import opened Pedidos

  /** What a controller handler answers: a redirect to a path, or a view with an optional error message. */
  datatype Resposta = Redirecionar(destino: string) | Exibir(vista: string, erro: Option<string>)

  class Sessao {
    /** "carrinho": product sequential id ↦ quantity. */
    var carrinho: Option<map<int, int>>
    /** "freteEscolhido": the shipping fee chosen or computed. */
    var freteEscolhido: Option<real>
    /** "cep": the postal code typed in the cart page. */
    var cep: Option<string>
    /** "cepFreteAtual": the postal code the automatic fee was computed for. */
    var cepFreteAtual: Option<string>
    /** "clienteLogado": the customer of a logged-in session. */
    var clienteLogado: Option<Cliente>
    /** "redirecionarAposLogin": where to go once the customer has logged in. */
    var redirecionarAposLogin: Option<string>
    /** "enderecoEscolhido": the delivery address picked at checkout. */
    var enderecoEscolhido: Option<Endereco>
    /** "formaPagamentoEscolhida": BOLETO or CARTAO, once picked at checkout. */
    var formaPagamentoEscolhida: Option<string>
    /** "dadosCartaoEscolhidos": the card data, for a card payment. */
    var dadosCartaoEscolhidos: Option<DadosCartao>

    /** A new session holds no attribute. */
    constructor ()
      ensures carrinho.None? && freteEscolhido.None? && cep.None? && cepFreteAtual.None?
      ensures clienteLogado.None? && redirecionarAposLogin.None? && enderecoEscolhido.None?
      ensures formaPagamentoEscolhida.None? && dadosCartaoEscolhidos.None?
    {
      carrinho := None;
      freteEscolhido := None;
      cep := None;
      cepFreteAtual := None;
      clienteLogado := None;
      redirecionarAposLogin := None;
      enderecoEscolhido := None;
      formaPagamentoEscolhida := None;
      dadosCartaoEscolhidos := None;
    }

    /** The five `removeAttribute` calls that close a checkout: cart, address, payment, card and fee. */
    method RemoverCheckout()
      modifies this`carrinho, this`enderecoEscolhido, this`formaPagamentoEscolhida, this`dadosCartaoEscolhidos
      modifies this`freteEscolhido
      ensures carrinho.None? && enderecoEscolhido.None? && formaPagamentoEscolhida.None?
      ensures dadosCartaoEscolhidos.None? && freteEscolhido.None?
    {
      carrinho := None;
      enderecoEscolhido := None;
      formaPagamentoEscolhida := None;
      dadosCartaoEscolhidos := None;
      freteEscolhido := None;
    }
  }
}
