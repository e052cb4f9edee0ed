/** Postal addresses (billing and delivery) as stored inside a customer document. */
module Enderecos {
  import opened Wrappers
  import opened Text

  /**
   * An address. Every text field may be null; `padrao` marks the default
   * delivery address. The id is a random UUID chosen at construction.
   */
  datatype Endereco = Endereco(
    id: string,
    cep: Option<string>,
    logradouro: Option<string>,
    numero: Option<string>,
    complemento: Option<string>,
    bairro: Option<string>,
    cidade: Option<string>,
    uf: Option<string>,
    padrao: bool)

  /** The no-argument constructor: a fresh id, every field null, not the default. */
  function Vazio(novoId: string): (e: Endereco)
    ensures e.id == novoId && !e.padrao
    ensures e.cep.None? && e.logradouro.None? && e.numero.None? && e.complemento.None?
    ensures e.bairro.None? && e.cidade.None? && e.uf.None?
  {
    Endereco(novoId, None, None, None, None, None, None, None, false)
  }

  /** The seven-field constructor: a fresh id, the given fields, not the default. */
  function Novo(novoId: string, cep: Option<string>, logradouro: Option<string>, numero: Option<string>,
                complemento: Option<string>, bairro: Option<string>, cidade: Option<string>,
                uf: Option<string>): (e: Endereco)
    ensures e.id == novoId && !e.padrao
    ensures e.(id := "", padrao := true) == Endereco("", cep, logradouro, numero, complemento, bairro, cidade, uf, true)
  {
    Endereco(novoId, cep, logradouro, numero, complemento, bairro, cidade, uf, false)
  }

  /** A copy of every postal field of `e` under a new id, not the default. */
  function Copia(novoId: string, e: Endereco): (c: Endereco)
    ensures c.id == novoId && !c.padrao
    ensures c.(id := e.id, padrao := e.padrao) == e
  {
    Novo(novoId, e.cep, e.logradouro, e.numero, e.complemento, e.bairro, e.cidade, e.uf)
  }

  /** What `StringBuilder.append` writes for a possibly null string. */
  function Texto(s: Option<string>): string {
    match s
    case Some(v) => v
    case None => "null"
  }

  /** Non-null and not blank. */
  predicate Preenchido(s: Option<string>) {
    s.Some? && !IsBlank(s.value)
  }

  /** `", " + s` when `s` is filled in, nothing otherwise. */
  function Opcional(s: Option<string>): string {
    if Preenchido(s) then ", " + s.value else ""
  }

  /**
   * `getEnderecoCompleto`: logradouro [", " numero] [", " complemento]
   * " - " bairro ", " cidade " - " uf " CEP: " cep.
   */
  function EnderecoCompleto(e: Endereco): string {
    Texto(e.logradouro) + Opcional(e.numero) + Opcional(e.complemento)
      + " - " + Texto(e.bairro) + ", " + Texto(e.cidade) + " - " + Texto(e.uf) + " CEP: " + Texto(e.cep)
  }

  /** The display string always shows street, district, city, state and postal code. */
  lemma CompletoContemCampos(e: Endereco)
    ensures Contains(EnderecoCompleto(e), Texto(e.logradouro))
    ensures Contains(EnderecoCompleto(e), Texto(e.bairro))
    ensures Contains(EnderecoCompleto(e), Texto(e.cidade))
    ensures Contains(EnderecoCompleto(e), Texto(e.uf))
    ensures Contains(EnderecoCompleto(e), Texto(e.cep))
  {
    var l, n, c := Texto(e.logradouro), Opcional(e.numero), Opcional(e.complemento);
    var b, ci, u, cep := Texto(e.bairro), Texto(e.cidade), Texto(e.uf), Texto(e.cep);
    // The string, as its left-nested concatenations.
    var s1 := l + n;
    var s2 := s1 + c;
    var s3 := s2 + " - ";
    var s4 := s3 + b;
    var s5 := s4 + ", ";
    var s6 := s5 + ci;
    var s7 := s6 + " - ";
    var s8 := s7 + u;
    var s9 := s8 + " CEP: ";
    var s10 := s9 + cep;
    assert s10 == EnderecoCompleto(e);
    ContainsSelf(l);
    ContainsInLeft(l, n, l);
    ContainsSelf(b);
    ContainsInRight(s3, b, b);
    ContainsSelf(ci);
    ContainsInRight(s5, ci, ci);
    ContainsSelf(u);
    ContainsInRight(s7, u, u);
    ContainsSelf(cep);
    ContainsInRight(s9, cep, cep);
    forall sub | sub in {l, b, ci, u}
      ensures Contains(s10, sub)
    {
      if sub == l {
        ContainsInLeft(s1, c, l);
        ContainsInLeft(s2, " - ", l);
        ContainsInLeft(s3, b, l);
      }
      if sub in {l, b} {
        ContainsInLeft(s4, ", ", sub);
        ContainsInLeft(s5, ci, sub);
      }
      if sub in {l, b, ci} {
        ContainsInLeft(s6, " - ", sub);
        ContainsInLeft(s7, u, sub);
      }
      ContainsInLeft(s8, " CEP: ", sub);
      ContainsInLeft(s9, cep, sub);
    }
  }

  /** A null or blank number or complement leaves no trace. */
  lemma OpcionaisOmitidos(e: Endereco)
    ensures !Preenchido(e.numero) ==> EnderecoCompleto(e) == EnderecoCompleto(e.(numero := None))
    ensures !Preenchido(e.complemento) ==> EnderecoCompleto(e) == EnderecoCompleto(e.(complemento := None))
  {
  }

  /** A filled-in number appears after ", ". */
  lemma NumeroAparece(e: Endereco)
    requires Preenchido(e.numero)
    ensures Contains(EnderecoCompleto(e), ", " + e.numero.value)
  {
    var l, n := Texto(e.logradouro), ", " + e.numero.value;
    var resto := Opcional(e.complemento) + " - " + Texto(e.bairro) + ", " + Texto(e.cidade) + " - "
      + Texto(e.uf) + " CEP: " + Texto(e.cep);
    ContainsPiece(l, n, resto);
    assert EnderecoCompleto(e) == l + n + resto;
  }
}
