/**
 * The postal-code lookup. The web call itself is an oracle: for an
 * eight-digit code it answers the four fields the public service returns,
 * or nothing (an `erro` answer, a failed call). What is modelled is the
 * normalisation in front of it and the address built from the answer.
 */
module ViaCep {
  import opened Wrappers
  import opened Text
  import opened Enderecos

  /** The fields read from the lookup's JSON answer. */
  datatype Resposta = Resposta(
    logradouro: Option<string>,
    bairro: Option<string>,
    localidade: Option<string>,
    uf: Option<string>)

  /**
   * `buscarEnderecoPorCep`: strips everything but digits, refuses anything
   * that is not eight digits without asking, and otherwise builds a new
   * address (fresh id, not default) from the answer. A null code fails
   * inside the `try` and is answered with null as well.
   */
  function BuscarEnderecoPorCep(consulta: string -> Option<Resposta>, cep: Option<string>, novoId: string): (r: Option<Endereco>)
    ensures cep.None? || |StripNonDigits(cep.value)| != 8 ==> r.None?
    ensures r.Some? <==> cep.Some? && |StripNonDigits(cep.value)| == 8 && consulta(StripNonDigits(cep.value)).Some?
    ensures r.Some? ==>
      var resposta := consulta(StripNonDigits(cep.value)).value;
      && r.value.id == novoId && !r.value.padrao
      && r.value.cep == Some(StripNonDigits(cep.value))
      && r.value.logradouro == resposta.logradouro && r.value.bairro == resposta.bairro
      && r.value.cidade == resposta.localidade && r.value.uf == resposta.uf
      && r.value.numero.None? && r.value.complemento.None?
  {
    if cep.None? then None
    else
      var digitos := StripNonDigits(cep.value);
      if |digitos| != 8 then None
      else match consulta(digitos)
        case None => None
        case Some(resposta) =>
          var e := Vazio(novoId);
          Some(e.(cep := Some(digitos), logradouro := resposta.logradouro, bairro := resposta.bairro,
                  cidade := resposta.localidade, uf := resposta.uf))
  }

  /** Punctuation in the postal code makes no difference to the lookup. */
  lemma FormatacaoIndiferente(consulta: string -> Option<Resposta>, cep: string, novoId: string)
    ensures BuscarEnderecoPorCep(consulta, Some(cep), novoId) == BuscarEnderecoPorCep(consulta, Some(StripNonDigits(cep)), novoId)
  {
    StripKeepsDigits(StripNonDigits(cep));
  }
}
