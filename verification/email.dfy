/**
 * The e-mail check shared by the customer and staff services: the pattern
 * `^[A-Za-z0-9+_.-]+@[A-Za-z0-9.-]+\.[A-Za-z]{2,}$` matched against the
 * whole (untrimmed) string, after a null/blank guard.
 */
module Email {
  import opened Wrappers
  import opened Text

  predicate Letra(c: char) { 'A' <= c <= 'Z' || 'a' <= c <= 'z' }

  predicate Alfanumerico(c: char) { Letra(c) || IsDigit(c) }

  /** `[A-Za-z0-9+_.-]` */
  predicate CaractereLocal(c: char) { Alfanumerico(c) || c == '+' || c == '_' || c == '.' || c == '-' }

  /** `[A-Za-z0-9.-]` */
  predicate CaractereDominio(c: char) { Alfanumerico(c) || c == '.' || c == '-' }

  predicate SoLetras(s: string) { forall i :: 0 <= i < |s| ==> Letra(s[i]) }

  predicate ParteLocal(s: string) { forall i :: 0 <= i < |s| ==> CaractereLocal(s[i]) }

  predicate CaracteresDominio(d: string) { forall i :: 0 <= i < |d| ==> CaractereDominio(d[i]) }

  /** `\.[A-Za-z]{2,}` ends `d` at position `j`, with a non-empty head before it. */
  predicate SufixoEm(d: string, j: int)
    requires 0 <= j < |d|
  {
    1 <= j <= |d| - 3 && d[j] == '.' && SoLetras(d[j + 1..])
  }

  /** `[A-Za-z0-9.-]+\.[A-Za-z]{2,}`: a non-empty head, a dot, then two or more letters. */
  predicate DominioValido(d: string) {
    CaracteresDominio(d) && exists j :: 0 <= j < |d| && SufixoEm(d, j)
  }

  /** The local part and the domain either side of an `@` at position `k`. */
  predicate PartesEm(s: string, k: int)
    requires 0 <= k < |s|
  {
    1 <= k && s[k] == '@' && ParteLocal(s[..k]) && DominioValido(s[k + 1..])
  }

  /** The whole string matches the pattern. */
  predicate CasaPadrao(s: string) {
    exists k :: 0 <= k < |s| && PartesEm(s, k)
  }

  /** `validarEmail`. */
  predicate EmailValido(email: Option<string>) {
    !NullOrBlank(email) && CasaPadrao(email.value)
  }

  lemma {:induction false} ArrobaNaDivisao(s: string, p: int, q: int)
    requires 0 <= p < |s| && PartesEm(s, p)
    requires 0 <= q < |s| && s[q] == '@'
    ensures q == p
  {
  }

  /** A matching address has exactly one `@`. */
  lemma UmaArroba(s: string, k: int, m: int)
    requires CasaPadrao(s)
    requires 0 <= k < |s| && 0 <= m < |s| && s[k] == '@' && s[m] == '@'
    ensures k == m
  {
    var p :| 0 <= p < |s| && PartesEm(s, p);
    ArrobaNaDivisao(s, p, k);
    ArrobaNaDivisao(s, p, m);
  }

  /** A valid address ends with a dot followed by at least two letters. */
  lemma TerminaComSufixo(email: Option<string>)
    requires EmailValido(email)
    ensures exists j :: 0 <= j < |email.value| - 2 && email.value[j] == '.' && SoLetras(email.value[j + 1..])
  {
    var s := email.value;
    var k :| 0 <= k < |s| && PartesEm(s, k);
    var d := s[k + 1..];
    var j :| 0 <= j < |d| && SufixoEm(d, j);
    assert s[k + 1 + j] == '.';
    assert s[k + 1 + j + 1..] == d[j + 1..];
  }

  lemma ExemploValido()
    ensures EmailValido(Some("joao@email.com"))
  {
    var s := "joao@email.com";
    var d := s[5..];
    assert d == "email.com";
    assert SufixoEm(d, 5);
    assert CaracteresDominio(d);
    assert PartesEm(s, 4);
  }

  lemma ExemploInvalido()
    ensures !EmailValido(Some("email-invalido"))
  {
    var t := "email-invalido";
    assert '@' !in t;
    assert !CasaPadrao(t) by {
      forall k | 0 <= k < |t|
        ensures !PartesEm(t, k)
      {
        assert t[k] in t;
      }
    }
  }
}
