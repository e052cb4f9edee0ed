/**
 * The Brazilian CPF check-digit rule (mod 11), shared by the customer and
 * the staff validators. Both services run the same two accumulation loops;
 * they differ only in how they treat formatting characters (see the two
 * services).
 */
module Cpf {
  import opened Text

  /** Sum over the first `n` digits of `s` of digit × (peso − position). */
  function SomaPonderada(s: string, n: nat, peso: int): int
    requires n <= |s| && AllDigits(s)
  {
    if n == 0 then 0 else SomaPonderada(s, n - 1, peso) + DigitVal(s[n - 1]) * (peso - (n - 1))
  }

  /** 11 − (soma mod 11), with 10 and 11 mapped to 0. */
  function DigitoVerificador(soma: int): (d: nat)
    ensures d < 10
    ensures soma % 11 <= 1 <==> d == 0
  {
    var c := 11 - soma % 11;
    if c >= 10 then 0 else c
  }

  predicate TodosIguais(s: string) {
    forall i :: 0 <= i < |s| ==> s[i] == s[0]
  }

  /** What the regular expression `(\d)\1{10}` matches: one digit repeated eleven times. */
  predicate RepeteUmDigito(s: string) {
    |s| == 11 && AllDigits(s) && TodosIguais(s)
  }

  /** The tenth and eleventh digits are the two check digits of the first nine. */
  predicate DigitosConferem(s: string)
    requires |s| == 11 && AllDigits(s)
  {
    && DigitVal(s[9]) == DigitoVerificador(SomaPonderada(s, 9, 10))
    && DigitVal(s[10]) == DigitoVerificador(SomaPonderada(s, 10, 11))
  }

  /** A bare CPF (eleven digits, no punctuation) that passes the rule. */
  predicate CpfValido(s: string) {
    |s| == 11 && AllDigits(s) && !TodosIguais(s) && DigitosConferem(s)
  }

  /**
   * One of the two `for` loops of `validarCpf`: accumulates the weighted
   * sum of the first `n` digits with weights n+1 down to 2 and turns it into
   * a check digit.
   */
  method CalcularDigito(cpf: string, n: nat) returns (d: int)
    requires AllDigits(cpf) && n <= |cpf|
    ensures d == DigitoVerificador(SomaPonderada(cpf, n, n + 1))
  {
    var soma := 0;
    var i := 0;
    while i < n
      invariant 0 <= i <= n
      invariant soma == SomaPonderada(cpf, i, n + 1)
    {
      soma := soma + DigitVal(cpf[i]) * (n + 1 - i);
      i := i + 1;
    }
    d := 11 - soma % 11;
    if d >= 10 {
      d := 0;
    }
  }

  /** The body shared by both validators once an eleven-digit string is in hand. */
  method ConferirDigitos(cpf: string) returns (ok: bool)
    requires |cpf| == 11 && AllDigits(cpf)
    ensures ok == CpfValido(cpf)
  {
    if RepeteUmDigito(cpf) {
      return false;
    }
    var primeiro := CalcularDigito(cpf, 9);
    var segundo := CalcularDigito(cpf, 10);
    ok := DigitVal(cpf[9]) == primeiro && DigitVal(cpf[10]) == segundo;
  }

  /** The usual written form of a CPF, `ddd.ddd.ddd-dd`. */
  function Formatado(d: string): (r: string)
    requires |d| == 11
    ensures |r| == 14
  {
    (d[..3] + "." + d[3..6]) + "." + (d[6..9] + "-" + d[9..])
  }

  /** Removing the punctuation of the written form gives the digits back. */
  lemma FormatadoSemPontuacao(d: string)
    requires |d| == 11 && AllDigits(d)
    ensures StripNonDigits(Formatado(d)) == d
  {
    var a, b, c, e := d[..3], d[3..6], d[6..9], d[9..];
    var esquerda, direita := a + ['.'] + b, c + ['-'] + e;
    StripSkipsNonDigit(esquerda, '.', direita);
    assert AllDigits(a) && AllDigits(b) && AllDigits(c) && AllDigits(e);
    StripKeepsDigits(a);
    StripKeepsDigits(b);
    StripKeepsDigits(c);
    StripKeepsDigits(e);
    StripSkipsNonDigit(a, '.', b);
    StripSkipsNonDigit(c, '-', e);
    assert StripNonDigits(esquerda) == a + b;
    assert StripNonDigits(direita) == c + e;
    assert a + b == d[..6] && c + e == d[6..];
    assert d[..6] + d[6..] == d;
  }

  /** The weighted sum only reads the first `n` digits. */
  lemma {:induction false} SomaPrefixo(s: string, t: string, n: nat, peso: int)
    requires n <= |s| && n <= |t| && AllDigits(s) && AllDigits(t) && s[..n] == t[..n]
    ensures SomaPonderada(s, n, peso) == SomaPonderada(t, n, peso)
  {
    if n > 0 {
      assert s[..n - 1] == t[..n - 1] by { assert s[..n - 1] == s[..n][..n - 1]; assert t[..n - 1] == t[..n][..n - 1]; }
      assert s[n - 1] == s[..n][n - 1] == t[..n][n - 1] == t[n - 1];
      SomaPrefixo(s, t, n - 1, peso);
    }
  }

  /** A valid CPF from the test suites. */
  lemma ValidoExemplo()
    ensures CpfValido("11144477735")
  {
    var s := "11144477735";
    assert AllDigits(s);
    assert SomaPonderada(s, 1, 10) == 10 && SomaPonderada(s, 2, 10) == 19 && SomaPonderada(s, 3, 10) == 27 && SomaPonderada(s, 4, 10) == 55 && SomaPonderada(s, 5, 10) == 79;
    assert SomaPonderada(s, 6, 10) == 99 && SomaPonderada(s, 7, 10) == 127 && SomaPonderada(s, 8, 10) == 148 && SomaPonderada(s, 9, 10) == 162;
    assert SomaPonderada(s, 1, 11) == 11 && SomaPonderada(s, 2, 11) == 21 && SomaPonderada(s, 3, 11) == 30 && SomaPonderada(s, 4, 11) == 62 && SomaPonderada(s, 5, 11) == 90;
    assert SomaPonderada(s, 6, 11) == 114 && SomaPonderada(s, 7, 11) == 149 && SomaPonderada(s, 8, 11) == 177 && SomaPonderada(s, 9, 11) == 198 && SomaPonderada(s, 10, 11) == 204;
    assert !TodosIguais(s) by { assert s[3] != s[0]; }
  }

  /** Right shape, wrong second check digit. */
  lemma InvalidoExemplo()
    ensures !CpfValido("12345678901")
  {
    var s := "12345678901";
    assert SomaPonderada(s, 10, 11) == 255;
  }

  /**
   * A repeated digit passes the arithmetic on its own (54·c and 65·c are both
   * ≡ −c mod 11), which is why the rule refuses it explicitly.
   */
  lemma RepetidoPassaAritmetica(c: char)
    requires IsDigit(c)
    ensures DigitosConferem(seq(11, _ => c))
    ensures !CpfValido(seq(11, _ => c))
  {
    var s: string := seq(11, _ => c);
    var d := DigitVal(c);
    SomaRepetida(s, 9, 10, c);
    SomaRepetida(s, 10, 11, c);
    assert SomaPesos(9, 10) == 54 && SomaPesos(10, 11) == 65;
    DigitoDeRepetido(d);
    assert s[9] == c && s[10] == c;
  }

  /** 54·d and 65·d both leave d as their check digit. */
  lemma DigitoDeRepetido(d: int)
    requires 0 <= d <= 9
    ensures DigitoVerificador(54 * d) == d && DigitoVerificador(65 * d) == d
  {
    if d == 0 {
    } else if d == 1 {
    } else if d == 2 {
    } else if d == 3 {
    } else if d == 4 {
    } else if d == 5 {
    } else if d == 6 {
    } else if d == 7 {
    } else if d == 8 {
    } else {
      assert d == 9;
    }
  }

  /** The sum of the weights the first `n` positions receive: peso, peso − 1, … */
  function SomaPesos(n: nat, peso: int): int {
    if n == 0 then 0 else SomaPesos(n - 1, peso) + (peso - (n - 1))
  }

  lemma {:induction false} SomaRepetida(s: string, n: nat, peso: int, c: char)
    requires IsDigit(c) && n <= |s| && forall i :: 0 <= i < |s| ==> s[i] == c
    ensures AllDigits(s)
    ensures SomaPonderada(s, n, peso) == DigitVal(c) * SomaPesos(n, peso)
  {
    if n > 0 {
      SomaRepetida(s, n - 1, peso, c);
      var d := DigitVal(c);
      assert s[n - 1] == c;
      assert d * SomaPesos(n, peso) == d * SomaPesos(n - 1, peso) + d * (peso - (n - 1));
    }
  }
}
