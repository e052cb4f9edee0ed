/**
 * The customer service: the field validators of the storefront sign-up
 * form, registration, profile and password changes, and the delivery-address
 * operations. The postal lookup, the password hash and the date parser are
 * oracles held by the service; "today" and the fresh identifiers are passed
 * in by the caller.
 */
module ClienteServico {
  import opened Wrappers
  import opened Text
  import opened Cpf
  import opened Email
  import opened Tempo
  import opened Enderecos
  import opened Clientes
  import opened ViaCep
  import opened Repositorios

  const MSG_NOME := "Nome deve ter pelo menos 2 palavras com 3 letras cada"
  const CPF_INVALIDO := "CPF inválido"
  const CPF_JA_CADASTRADO := "CPF já cadastrado"
  const EMAIL_INVALIDO := "Email inválido"
  const EMAIL_JA_CADASTRADO := "Email já cadastrado"
  const DATA_INVALIDA := "Data de nascimento inválida"
  const GENERO_INVALIDO := "Gênero inválido"
  const SENHA_OBRIGATORIA := "Senha é obrigatória"
  const SENHAS_NAO_CONFEREM := "Senhas não conferem"
  const CEP_INVALIDO := "CEP inválido ou não encontrado"
  const ENDERECO_INCOMPLETO := "Dados do endereço incompletos"
  const CLIENTE_CADASTRADO := "Cliente cadastrado com sucesso"
  const CLIENTE_NAO_ENCONTRADO := "Cliente não encontrado"
  const DADOS_ALTERADOS := "Dados alterados com sucesso"
  const NOVA_SENHA_OBRIGATORIA := "Nova senha é obrigatória"
  const SENHA_ALTERADA := "Senha alterada com sucesso"
  const ENDERECO_ADICIONADO := "Endereço adicionado com sucesso"
  const SEM_ENDERECOS := "Cliente não possui endereços de entrega"
  const ENDERECO_NAO_ENCONTRADO := "Endereço não encontrado"
  const PADRAO_ALTERADO := "Endereço padrão alterado com sucesso"

  /** The failure messages of registration, in the order the checks run. */
  const MensagensCadastro: seq<string> := [
    MSG_NOME, CPF_INVALIDO, CPF_JA_CADASTRADO, EMAIL_INVALIDO, EMAIL_JA_CADASTRADO, DATA_INVALIDA,
    GENERO_INVALIDO, SENHA_OBRIGATORIA, SENHAS_NAO_CONFEREM, CEP_INVALIDO, ENDERECO_INCOMPLETO]

  // ---------------------------------------------------------------- CPF

  /**
   * `validarCpf` of the customer service. The length test runs on the raw
   * string, before the non-digits are removed, so a formatted CPF is refused;
   * an eleven-character string with a non-digit in it is stripped to fewer
   * than eleven digits and then read past its end.
   */
  function CpfCliente(cpf: Option<string>): (r: Checked<bool>)
    ensures cpf.None? || |cpf.value| != 11 ==> r == Returns(false)
    ensures cpf.Some? && |cpf.value| == 11 && AllDigits(cpf.value) ==> r == Returns(CpfValido(cpf.value))
    ensures r.Throws? ==> cpf.Some? && |cpf.value| == 11 && !AllDigits(cpf.value) && r.exception == IndexOutOfBounds
    ensures r == Returns(true) <==> cpf.Some? && CpfValido(cpf.value)
  {
    if cpf.None? || |cpf.value| != 11 then Returns(false)
    else
      StripKeepsDigits(cpf.value);
      StripDropsNonDigit(cpf.value);
      var s := StripNonDigits(cpf.value);
      if RepeteUmDigito(s) then Returns(false)
      else if |s| < 10 then Throws(IndexOutOfBounds)
      else if DigitVal(s[9]) != DigitoVerificador(SomaPonderada(s, 9, 10)) then Returns(false)
      else if |s| < 11 then Throws(IndexOutOfBounds)
      else Returns(DigitVal(s[10]) == DigitoVerificador(SomaPonderada(s, 10, 11)))
  }

  /** The two accumulation loops of `validarCpf`, in the source's order. */
  method ValidarCpf(cpf: Option<string>) returns (r: Checked<bool>)
    ensures r == CpfCliente(cpf)
  {
    if cpf.None? || |cpf.value| != 11 {
      return Returns(false);
    }
    var s := StripNonDigits(cpf.value);
    if RepeteUmDigito(s) {
      return Returns(false);
    }
    if |s| < 9 {
      return Throws(IndexOutOfBounds);
    }
    var primeiro := CalcularDigito(s, 9);
    if |s| < 10 {
      return Throws(IndexOutOfBounds);
    }
    var segundo := CalcularDigito(s, 10);
    if DigitVal(s[9]) != primeiro {
      return Returns(false);
    }
    if |s| < 11 {
      return Throws(IndexOutOfBounds);
    }
    return Returns(DigitVal(s[10]) == segundo);
  }

  /** The formatted form of a valid CPF is refused. */
  lemma CpfFormatadoRecusado()
    ensures CpfCliente(Some("111.444.777-35")) == Returns(false)
    ensures CpfCliente(Some("11144477735")) == Returns(true)
  {
    ValidoExemplo();
  }

  /**
   * An eleven-character CPF with one non-digit strips to ten digits: when
   * the tenth is the right check digit the eleventh is read past the end,
   * otherwise the answer is false.
   */
  lemma CpfDezDigitos(cpf: string)
    requires |cpf| == 11 && |StripNonDigits(cpf)| == 10
    ensures var s := StripNonDigits(cpf);
      DigitVal(s[9]) == DigitoVerificador(SomaPonderada(s, 9, 10)) ==> CpfCliente(Some(cpf)) == Throws(IndexOutOfBounds)
    ensures var s := StripNonDigits(cpf);
      DigitVal(s[9]) != DigitoVerificador(SomaPonderada(s, 9, 10)) ==> CpfCliente(Some(cpf)) == Returns(false)
  {
  }

  /**
   * One letter in place of the last digit: when the ten digits left end in
   * the right first check digit, the second one is read past the end.
   */
  lemma CpfComLetraLanca(digitos: string, letra: char)
    requires |digitos| == 10 && AllDigits(digitos) && !IsDigit(letra)
    requires DigitVal(digitos[9]) == DigitoVerificador(SomaPonderada(digitos, 9, 10))
    ensures CpfCliente(Some(digitos + [letra])) == Throws(IndexOutOfBounds)
  {
    SemLetraFinal(digitos, letra);
    CpfDezDigitos(digitos + [letra]);
  }

  /**
   * One letter in place of the tenth digit: the last digit slides into the
   * first check digit's place, and a wrong one makes the answer false.
   */
  lemma CpfComLetraRecusado(base: string, letra: char, d: char)
    requires |base| == 9 && AllDigits(base) && !IsDigit(letra) && IsDigit(d)
    requires DigitVal(d) != DigitoVerificador(SomaPonderada(base, 9, 10))
    ensures CpfCliente(Some(base + [letra, d])) == Returns(false)
  {
    SemLetraDecima(base, letra, d);
    SomaPrefixo(base + [d], base, 9, 10);
    assert (base + [d])[9] == d;
    CpfDezDigitos(base + [letra, d]);
  }

  /** Stripping drops a trailing non-digit. */
  lemma SemLetraFinal(digitos: string, letra: char)
    requires AllDigits(digitos) && !IsDigit(letra)
    ensures StripNonDigits(digitos + [letra]) == digitos
  {
    StripNonDigitsConcat(digitos, [letra]);
    StripKeepsDigits(digitos);
    assert StripNonDigits([letra]) == [];
  }

  /** Stripping drops a non-digit between the digits. */
  lemma SemLetraDecima(base: string, letra: char, d: char)
    requires AllDigits(base) && !IsDigit(letra) && IsDigit(d)
    ensures StripNonDigits(base + [letra, d]) == base + [d]
  {
    StripSkipsNonDigit(base, letra, [d]);
    StripKeepsDigits(base);
    StripKeepsDigits([d]);
    assert base + [letra] + [d] == base + [letra, d];
    assert AllDigits([d]);
  }

  /** The first nine digits of the test suites' CPF weigh 162, whose check digit is 3. */
  lemma SomaDaBase()
    ensures AllDigits("111444777") && SomaPonderada("111444777", 9, 10) == 162 && DigitoVerificador(162) == 3
  {
    var s := "111444777";
    assert AllDigits(s);
    assert SomaPonderada(s, 1, 10) == 10 && SomaPonderada(s, 2, 10) == 19 && SomaPonderada(s, 3, 10) == 27;
    assert SomaPonderada(s, 4, 10) == 55 && SomaPonderada(s, 5, 10) == 79 && SomaPonderada(s, 6, 10) == 99;
    assert SomaPonderada(s, 7, 10) == 127 && SomaPonderada(s, 8, 10) == 148 && SomaPonderada(s, 9, 10) == 162;
  }

  /** The test suites' "1114447773a" throws. */
  lemma CpfComLetraLancaExemplo()
    ensures CpfCliente(Some("1114447773a")) == Throws(IndexOutOfBounds)
  {
    var base := "111444777";
    var digitos := base + ['3'];
    SomaDaBase();
    SomaPrefixo(digitos, base, 9, 10);
    assert "1114447773a" == digitos + ['a'];
    CpfComLetraLanca(digitos, 'a');
  }

  /** The test suites' "111444777a5" is refused. */
  lemma CpfComLetraRecusadoExemplo()
    ensures CpfCliente(Some("111444777a5")) == Returns(false)
  {
    var base := "111444777";
    SomaDaBase();
    assert "111444777a5" == base + ['a', '5'];
    CpfComLetraRecusado(base, 'a', '5');
  }

  // ---------------------------------------------------------------- other fields

  /** The words of `nome.trim().split("\\s+")`. */
  function Palavras(nome: string): seq<string> {
    Words(Trim(nome))
  }

  /** At least two words, each at least three characters long. */
  predicate NomeValido(nome: Option<string>) {
    && !NullOrBlank(nome)
    && |Palavras(nome.value)| >= 2
    && forall i :: 0 <= i < |Palavras(nome.value)| ==> |Palavras(nome.value)[i]| >= 3
  }

  /** `validarNome`: the loop over the words. */
  method ValidarNome(nome: Option<string>) returns (ok: bool)
    ensures ok == NomeValido(nome)
  {
    if nome.None? {
      return false;
    }
    BlankIffTrimEmpty(nome.value);
    if Trim(nome.value) == [] {
      return false;
    }
    var palavras := Words(Trim(nome.value));
    if |palavras| < 2 {
      return false;
    }
    var i := 0;
    while i < |palavras|
      invariant 0 <= i <= |palavras|
      invariant forall j :: 0 <= j < i ==> |palavras[j]| >= 3
    {
      if |palavras[i]| < 3 {
        return false;
      }
      i := i + 1;
    }
    return true;
  }

  /** The accepted genders, compared after lower-casing and trimming. */
  const Generos: seq<string> := ["masculino", "feminino", "outro", "não informado"]

  /** `validarGenero`. */
  predicate GeneroValido(genero: Option<string>) {
    !NullOrBlank(genero) && Trim(ToLower(genero.value)) in Generos
  }

  /** Case does not matter. */
  lemma GeneroSemCaixa()
    ensures GeneroValido(Some("Feminino"))
  {
    assert ToLower("Feminino") == "feminino";
    assert Trim("feminino") == "feminino";
  }

  /** Surrounding blanks do not matter. */
  lemma GeneroComBrancos()
    ensures GeneroValido(Some(" OUTRO "))
  {
    assert ToLower(" OUTRO ") == " outro ";
    assert TrimStart(" outro ") == "outro ";
    assert TrimEnd("outro ") == "outro";
  }

  /** A value outside the four is refused. */
  lemma GeneroDesconhecido()
    ensures !GeneroValido(Some("indefinido"))
  {
    assert ToLower("indefinido") == "indefinido";
    assert Trim("indefinido") == "indefinido";
  }

  /**
   * `validarEndereco`: cep, logradouro, numero, bairro, cidade and uf
   * non-null and not blank. The complement is not checked.
   */
  predicate EnderecoValido(e: Option<Endereco>) {
    && e.Some?
    && Preenchido(e.value.cep) && Preenchido(e.value.logradouro) && Preenchido(e.value.numero)
    && Preenchido(e.value.bairro) && Preenchido(e.value.cidade) && Preenchido(e.value.uf)
  }

  /** The complement never decides whether an address is complete. */
  lemma ComplementoIndiferente(e: Endereco, complemento: Option<string>)
    ensures EnderecoValido(Some(e)) == EnderecoValido(Some(e.(complemento := complemento)))
  {
  }

  /**
   * `validarDataNascimento`: the parsed date when the text is present,
   * parses as `yyyy-MM-dd` and is not after today.
   */
  function DataNascimento(analisar: string -> Option<Data>, texto: Option<string>, hoje: Data): (r: Option<Data>)
    ensures NullOrBlank(texto) ==> r.None?
    ensures r.Some? ==> !NullOrBlank(texto) && analisar(texto.value) == r && !Depois(r.value, hoje)
    ensures !NullOrBlank(texto) && analisar(texto.value).Some? && !Depois(analisar(texto.value).value, hoje) ==> r.Some?
  {
    if NullOrBlank(texto) then None
    else match analisar(texto.value)
      case None => None
      case Some(d) => if Depois(d, hoje) then None else Some(d)
  }

  // ---------------------------------------------------------------- registration

  /** The services the customer service calls but that are not modelled. */
  datatype Oraculos = Oraculos(
    consultaCep: string -> Option<Resposta>,
    analisarData: string -> Option<Data>,
    codificar: string -> string,
    confere: (string, string) -> bool)

  /** The sign-up form. Street, district, city and state are sent but not read. */
  datatype FormCliente = FormCliente(
    nome: Option<string>, cpf: Option<string>, email: Option<string>, dataNascimento: Option<string>,
    genero: Option<string>, senha: Option<string>, confirmaSenha: Option<string>,
    cep: Option<string>, logradouro: Option<string>, numero: Option<string>, complemento: Option<string>,
    bairro: Option<string>, cidade: Option<string>, uf: Option<string>)

  /** Fresh identifiers: the customer document and its two addresses. */
  datatype IdsNovos = IdsNovos(cliente: string, faturamento: string, entrega: string)

  /** The outcome message and the document saved, if any. */
  datatype Desfecho = Desfecho(mensagem: string, novo: Option<Cliente>)

  predicate CpfEmUso(clientes: seq<Cliente>, cpf: Option<string>) {
    exists c :: c in clientes && c.cpf == cpf
  }

  predicate EmailEmUso(clientes: seq<Cliente>, email: Option<string>) {
    exists c :: c in clientes && c.email == email
  }

  /** The looked-up billing address completed with the number and complement of the form. */
  function Faturamento(o: Oraculos, f: FormCliente, ids: IdsNovos): (r: Option<Endereco>)
    ensures r.Some? ==> r.value.numero == f.numero && r.value.complemento == f.complemento && !r.value.padrao
  {
    match BuscarEnderecoPorCep(o.consultaCep, f.cep, ids.faturamento)
    case None => None
    case Some(e) => Some(e.(numero := f.numero, complemento := f.complemento))
  }

  /** Check number `k` of registration, in the order of `MensagensCadastro`. */
  predicate Confere(o: Oraculos, clientes: seq<Cliente>, f: FormCliente, hoje: Data, ids: IdsNovos, k: nat) {
    match k
    case 0 => NomeValido(f.nome)
    case 1 => CpfCliente(f.cpf) == Returns(true)
    case 2 => !CpfEmUso(clientes, f.cpf)
    case 3 => EmailValido(f.email)
    case 4 => !EmailEmUso(clientes, f.email)
    case 5 => DataNascimento(o.analisarData, f.dataNascimento, hoje).Some?
    case 6 => GeneroValido(f.genero)
    case 7 => !NullOrBlank(f.senha)
    case 8 => f.confirmaSenha == f.senha
    case 9 => Faturamento(o, f, ids).Some?
    case 10 => EnderecoValido(Faturamento(o, f, ids))
    case _ => true
  }

  /**
   * The customer that registration saves: active, the billing address from
   * the lookup, and one delivery address, a copy of it under its own id,
   * flagged as the default.
   */
  function NovoCliente(o: Oraculos, f: FormCliente, hoje: Data, ids: IdsNovos): (c: Cliente)
    requires f.nome.Some? && f.cpf.Some? && f.email.Some? && f.genero.Some? && f.senha.Some?
    requires DataNascimento(o.analisarData, f.dataNascimento, hoje).Some? && Faturamento(o, f, ids).Some?
    ensures c.id == ids.cliente && c.status
    ensures c.nome == Some(Trim(f.nome.value)) && c.cpf == f.cpf && c.email == f.email && c.genero == f.genero
    ensures c.senha == Some(o.codificar(f.senha.value))
    ensures c.dataNascimento == DataNascimento(o.analisarData, f.dataNascimento, hoje)
    ensures c.enderecoFaturamento == Faturamento(o, f, ids)
    ensures |Entregas(c)| == 1 && Entregas(c)[0].padrao && Entregas(c)[0].id == ids.entrega
    ensures Entregas(c)[0].(id := ids.faturamento, padrao := false) == c.enderecoFaturamento.value
    ensures UnicoPadrao(Entregas(c))
  {
    var faturamento := Faturamento(o, f, ids).value;
    var entrega := Copia(ids.entrega, faturamento).(padrao := true);
    var c := Clientes.Novo(ids.cliente, Trim(f.nome.value), f.cpf.value, f.email.value,
                           DataNascimento(o.analisarData, f.dataNascimento, hoje).value, f.genero.value,
                           o.codificar(f.senha.value), faturamento);
    AdicionarEnderecoEntrega(c, entrega)
  }

  /** `cadastrarCliente` as a function of the store's contents before the call. */
  function Cadastro(o: Oraculos, clientes: seq<Cliente>, f: FormCliente, hoje: Data, ids: IdsNovos): (r: Checked<Desfecho>)
    ensures r.Throws? <==> NomeValido(f.nome) && CpfCliente(f.cpf).Throws?
    ensures r.Returns? ==> (r.value.novo.Some? <==> r.value.mensagem == CLIENTE_CADASTRADO)
    ensures r.Returns? && r.value.novo.Some? ==> r.value.novo.value.id == ids.cliente && |Entregas(r.value.novo.value)| == 1
  {
    if !NomeValido(f.nome) then Returns(Desfecho(MSG_NOME, None))
    else match CpfCliente(f.cpf)
      case Throws(e) => Throws(e)
      case Returns(valido) =>
        if !valido then Returns(Desfecho(CPF_INVALIDO, None))
        else if CpfEmUso(clientes, f.cpf) then Returns(Desfecho(CPF_JA_CADASTRADO, None))
        else if !EmailValido(f.email) then Returns(Desfecho(EMAIL_INVALIDO, None))
        else if EmailEmUso(clientes, f.email) then Returns(Desfecho(EMAIL_JA_CADASTRADO, None))
        else if DataNascimento(o.analisarData, f.dataNascimento, hoje).None? then Returns(Desfecho(DATA_INVALIDA, None))
        else if !GeneroValido(f.genero) then Returns(Desfecho(GENERO_INVALIDO, None))
        else if NullOrBlank(f.senha) then Returns(Desfecho(SENHA_OBRIGATORIA, None))
        else if f.confirmaSenha != f.senha then Returns(Desfecho(SENHAS_NAO_CONFEREM, None))
        else if Faturamento(o, f, ids).None? then Returns(Desfecho(CEP_INVALIDO, None))
        else if !EnderecoValido(Faturamento(o, f, ids)) then Returns(Desfecho(ENDERECO_INCOMPLETO, None))
        else Returns(Desfecho(CLIENTE_CADASTRADO, Some(NovoCliente(o, f, hoje, ids))))
  }

  /** Checks 0..k-1 all pass. */
  predicate ConferemAte(o: Oraculos, clientes: seq<Cliente>, f: FormCliente, hoje: Data, ids: IdsNovos, k: nat) {
    k == 0 || (ConferemAte(o, clientes, f, hoje, ids, k - 1) && Confere(o, clientes, f, hoje, ids, k - 1))
  }

  /**
   * The first failing check wins: unless the CPF check fails with an
   * exception, registration answers the message of check `k` exactly when
   * checks 0..k-1 pass and check `k` fails, and it saves a customer exactly
   * when every check passes.
   */
  lemma CadastroPrimeiraFalha(o: Oraculos, clientes: seq<Cliente>, f: FormCliente, hoje: Data, ids: IdsNovos)
    ensures Cadastro(o, clientes, f, hoje, ids).Returns? ==>
      forall k :: 0 <= k < |MensagensCadastro| ==>
        (Cadastro(o, clientes, f, hoje, ids) == Returns(Desfecho(MensagensCadastro[k], None)) <==>
          ConferemAte(o, clientes, f, hoje, ids, k) && !Confere(o, clientes, f, hoje, ids, k))
  {
    ConferemAteAbertos(o, clientes, f, hoje, ids);
  }

  /** Registration saves a customer exactly when every check passes. */
  lemma CadastroSalvaSeTodas(o: Oraculos, clientes: seq<Cliente>, f: FormCliente, hoje: Data, ids: IdsNovos)
    ensures (Cadastro(o, clientes, f, hoje, ids).Returns? && Cadastro(o, clientes, f, hoje, ids).value.novo.Some?) <==>
      ConferemAte(o, clientes, f, hoje, ids, |MensagensCadastro|)
  {
    ConferemAteAbertos(o, clientes, f, hoje, ids);
  }

  /** `ConferemAte` written out as the conjunction of the checks before `k`. */
  lemma ConferemAteAbertos(o: Oraculos, clientes: seq<Cliente>, f: FormCliente, hoje: Data, ids: IdsNovos)
    ensures var c := k => Confere(o, clientes, f, hoje, ids, k);
      && ConferemAte(o, clientes, f, hoje, ids, 1) == c(0)
      && ConferemAte(o, clientes, f, hoje, ids, 2) == (c(0) && c(1))
      && ConferemAte(o, clientes, f, hoje, ids, 3) == (c(0) && c(1) && c(2))
      && ConferemAte(o, clientes, f, hoje, ids, 4) == (c(0) && c(1) && c(2) && c(3))
      && ConferemAte(o, clientes, f, hoje, ids, 5) == (c(0) && c(1) && c(2) && c(3) && c(4))
      && ConferemAte(o, clientes, f, hoje, ids, 6) == (c(0) && c(1) && c(2) && c(3) && c(4) && c(5))
      && ConferemAte(o, clientes, f, hoje, ids, 7) == (c(0) && c(1) && c(2) && c(3) && c(4) && c(5) && c(6))
      && ConferemAte(o, clientes, f, hoje, ids, 8) == (c(0) && c(1) && c(2) && c(3) && c(4) && c(5) && c(6) && c(7))
      && ConferemAte(o, clientes, f, hoje, ids, 9) ==
           (c(0) && c(1) && c(2) && c(3) && c(4) && c(5) && c(6) && c(7) && c(8))
      && ConferemAte(o, clientes, f, hoje, ids, 10) ==
           (c(0) && c(1) && c(2) && c(3) && c(4) && c(5) && c(6) && c(7) && c(8) && c(9))
      && ConferemAte(o, clientes, f, hoje, ids, 11) ==
           (c(0) && c(1) && c(2) && c(3) && c(4) && c(5) && c(6) && c(7) && c(8) && c(9) && c(10))
  {
  }

  // ---------------------------------------------------------------- delivery addresses

  /** Every address with its default flag cleared (`forEach(e -> e.setPadrao(false))`). */
  function Desmarcados(s: seq<Endereco>): (r: seq<Endereco>)
    ensures |r| == |s| && forall i :: 0 <= i < |s| ==> r[i] == s[i].(padrao := false)
  {
    seq(|s|, i requires 0 <= i < |s| => s[i].(padrao := false))
  }

  /** The `forEach` that clears every default flag. */
  method DesmarcarTodos(s: seq<Endereco>) returns (r: seq<Endereco>)
    ensures r == Desmarcados(s)
  {
    r := s;
    var i := 0;
    while i < |r|
      invariant 0 <= i <= |r| == |s|
      invariant forall k :: 0 <= k < i ==> r[k] == s[k].(padrao := false)
      invariant forall k :: i <= k < |r| ==> r[k] == s[k]
    {
      r := r[i := r[i].(padrao := false)];
      i := i + 1;
    }
  }

  /**
   * The customer after `adicionarEnderecoEntrega` has appended `e`: the new
   * address is the only default when `definirComoPadrao`, and otherwise it
   * is not a default and the existing flags are left alone.
   */
  function ComNovoEndereco(c: Cliente, e: Endereco, definirComoPadrao: bool): (r: Cliente)
    ensures r.(enderecosEntrega := c.enderecosEntrega) == c
    ensures |Entregas(r)| == |Entregas(c)| + 1
    ensures Entregas(r)[|Entregas(c)|] == e.(padrao := definirComoPadrao)
    ensures forall i :: 0 <= i < |Entregas(c)| ==> Entregas(r)[i].(padrao := Entregas(c)[i].padrao) == Entregas(c)[i]
    ensures definirComoPadrao ==> forall i :: 0 <= i < |Entregas(r)| ==> (Entregas(r)[i].padrao <==> i == |Entregas(c)|)
    ensures !definirComoPadrao ==> Entregas(r)[..|Entregas(c)|] == Entregas(c)
  {
    var base := if definirComoPadrao && c.enderecosEntrega.Some?
                then c.(enderecosEntrega := Some(Desmarcados(c.enderecosEntrega.value))) else c;
    AdicionarEnderecoEntrega(base, e.(padrao := definirComoPadrao))
  }

  /**
   * The flags after `alterarEnderecoPadrao` found `enderecoId`: every flag
   * cleared, then only the first address with that id set.
   */
  function MarcarPrimeiro(s: seq<Endereco>, enderecoId: string): (r: seq<Endereco>)
    ensures |r| == |s|
    ensures forall i :: 0 <= i < |s| ==> r[i].(padrao := s[i].padrao) == s[i]
    ensures forall i :: 0 <= i < |s| ==> (r[i].padrao <==> Primeiro(s, (e: Endereco) => e.id == enderecoId) == Some(i))
    ensures UnicoPadrao(r)
  {
    var k := Primeiro(s, (e: Endereco) => e.id == enderecoId);
    seq(|s|, i requires 0 <= i < |s| => s[i].(padrao := k == Some(i)))
  }

  /**
   * The two loops of `alterarEnderecoPadrao` over the addresses: every flag
   * cleared, then the first address with the id set; `encontrado` says
   * whether there was one.
   */
  method MarcarEndereco(original: seq<Endereco>, enderecoId: string) returns (lista: seq<Endereco>, encontrado: bool)
    ensures encontrado <==> exists e :: e in original && e.id == enderecoId
    ensures encontrado ==> lista == MarcarPrimeiro(original, enderecoId)
  {
    lista := DesmarcarTodos(original);
    encontrado := false;
    var i := 0;
    while i < |lista|
      invariant 0 <= i <= |lista| == |original|
      invariant lista == Desmarcados(original)
      invariant forall j :: 0 <= j < i ==> original[j].id != enderecoId
    {
      if lista[i].id == enderecoId {
        lista := lista[i := lista[i].(padrao := true)];
        encontrado := true;
        assert Primeiro(original, (e: Endereco) => e.id == enderecoId) == Some(i);
        assert lista == MarcarPrimeiro(original, enderecoId);
        return;
      }
      i := i + 1;
    }
  }

  /**
   * With unique address ids, the service's first-match marking is the
   * customer's own `definirEnderecoPadrao`.
   */
  lemma MarcarPrimeiroComoDefinir(s: seq<Endereco>, enderecoId: string)
    requires IdsUnicos(s)
    requires exists i :: 0 <= i < |s| && s[i].id == enderecoId
    ensures MarcarPrimeiro(s, enderecoId) == MarcarPadrao(s, enderecoId)
  {
    var k := Primeiro(s, (e: Endereco) => e.id == enderecoId);
    var a := MarcarPrimeiro(s, enderecoId);
    var b := MarcarPadrao(s, enderecoId);
    forall i | 0 <= i < |s|
      ensures a[i] == b[i]
    {
      assert a[i].padrao <==> k == Some(i);
      assert b[i].padrao <==> s[i].id == enderecoId;
    }
  }

  // ---------------------------------------------------------------- the answers of the profile operations

  /**
   * The answer of `alterarDadosCliente`: the checks in the order the code
   * makes them (customer, name, birth date, gender), the first failing one
   * naming the answer.
   */
  function MensagemAlteracaoDados(encontrado: bool, nome: Option<string>, data: Option<Data>,
                                  genero: Option<string>): (m: string)
    ensures m == DADOS_ALTERADOS <==> encontrado && NomeValido(nome) && data.Some? && GeneroValido(genero)
    ensures !encontrado ==> m == CLIENTE_NAO_ENCONTRADO
  {
    if !encontrado then CLIENTE_NAO_ENCONTRADO
    else if !NomeValido(nome) then MSG_NOME
    else if data.None? then DATA_INVALIDA
    else if !GeneroValido(genero) then GENERO_INVALIDO
    else DADOS_ALTERADOS
  }

  /**
   * The answer of `adicionarEnderecoEntrega`, from whether the customer was
   * found and the address the postal-code lookup built (null when it failed).
   */
  function MensagemAdicaoEndereco(encontrado: bool, consultado: Option<Endereco>, numero: Option<string>,
                                  complemento: Option<string>): (m: string)
    ensures m == ENDERECO_ADICIONADO <==>
      encontrado && consultado.Some? && EnderecoValido(Some(consultado.value.(numero := numero, complemento := complemento)))
    ensures !encontrado ==> m == CLIENTE_NAO_ENCONTRADO
  {
    if !encontrado then CLIENTE_NAO_ENCONTRADO
    else if consultado.None? then CEP_INVALIDO
    else if !EnderecoValido(Some(consultado.value.(numero := numero, complemento := complemento))) then ENDERECO_INCOMPLETO
    else ENDERECO_ADICIONADO
  }

  /** The answer of `alterarEnderecoPadrao`, from the customer found. */
  function MensagemEnderecoPadrao(encontrado: Option<Cliente>, enderecoId: string): (m: string)
    ensures m == PADRAO_ALTERADO <==> encontrado.Some? && exists e :: e in Entregas(encontrado.value) && e.id == enderecoId
    ensures encontrado.None? ==> m == CLIENTE_NAO_ENCONTRADO
  {
    if encontrado.None? then CLIENTE_NAO_ENCONTRADO
    else if Entregas(encontrado.value) == [] then SEM_ENDERECOS
    else if forall e | e in Entregas(encontrado.value) :: e.id != enderecoId then ENDERECO_NAO_ENCONTRADO
    else PADRAO_ALTERADO
  }

  // ---------------------------------------------------------------- the service

  class ClienteService {
    const repo: ClienteRepository
    const oraculos: Oraculos

    constructor (repo: ClienteRepository, oraculos: Oraculos)
      ensures this.repo == repo && this.oraculos == oraculos
    {
      this.repo := repo;
      this.oraculos := oraculos;
    }

    /**
     * `autenticar`: the customer the e-mail lookup finds, when active and the
     * password matches its stored hash (a missing hash never matches).
     */
    function Autenticar(email: Option<string>, senha: string): (r: Option<Cliente>)
      reads repo
      ensures r.Some? ==> r == repo.FindByEmail(email)
      ensures r.Some? ==> r.value.status && r.value.senha.Some? && oraculos.confere(senha, r.value.senha.value)
      ensures (forall c :: c in repo.clientes ==> c.email != email) ==> r.None?
      ensures var achado := repo.FindByEmail(email);
        achado.Some? && achado.value.status && achado.value.senha.Some? && oraculos.confere(senha, achado.value.senha.value) ==>
          r == achado
    {
      match repo.FindByEmail(email)
      case None => None
      case Some(c) =>
        if c.status && c.senha.Some? && oraculos.confere(senha, c.senha.value) then Some(c) else None
    }

    /** `cadastrarCliente`: saves the new customer only when every check passes. */
    method CadastrarCliente(f: FormCliente, hoje: Data, ids: IdsNovos) returns (r: Checked<string>)
      modifies repo
      ensures match Cadastro(oraculos, old(repo.clientes), f, hoje, ids)
        case Throws(e) => r == Throws(e) && repo.clientes == old(repo.clientes)
        case Returns(d) =>
          && r == Returns(d.mensagem)
          && repo.clientes == (if d.novo.Some? then Salvar(old(repo.clientes), d.novo.value, IdCliente) else old(repo.clientes))
    {
      var nomeOk := ValidarNome(f.nome);
      if !nomeOk {
        return Returns(MSG_NOME);
      }
      var cpfOk := ValidarCpf(f.cpf);
      if cpfOk.Throws? {
        return Throws(cpfOk.exception);
      }
      if !cpfOk.value {
        return Returns(CPF_INVALIDO);
      }
      if repo.ExistsByCpf(f.cpf) {
        return Returns(CPF_JA_CADASTRADO);
      }
      if !EmailValido(f.email) {
        return Returns(EMAIL_INVALIDO);
      }
      if repo.ExistsByEmail(f.email) {
        return Returns(EMAIL_JA_CADASTRADO);
      }
      var data := DataNascimento(oraculos.analisarData, f.dataNascimento, hoje);
      if data.None? {
        return Returns(DATA_INVALIDA);
      }
      if !GeneroValido(f.genero) {
        return Returns(GENERO_INVALIDO);
      }
      if NullOrBlank(f.senha) {
        return Returns(SENHA_OBRIGATORIA);
      }
      if f.confirmaSenha != f.senha {
        return Returns(SENHAS_NAO_CONFEREM);
      }
      var consultado := BuscarEnderecoPorCep(oraculos.consultaCep, f.cep, ids.faturamento);
      if consultado.None? {
        return Returns(CEP_INVALIDO);
      }
      var faturamento := consultado.value.(numero := f.numero, complemento := f.complemento);
      if !EnderecoValido(Some(faturamento)) {
        return Returns(ENDERECO_INCOMPLETO);
      }
      var cliente := Clientes.Novo(ids.cliente, Trim(f.nome.value), f.cpf.value, f.email.value, data.value,
                                   f.genero.value, oraculos.codificar(f.senha.value), faturamento);
      var entrega := Copia(ids.entrega, faturamento).(padrao := true);
      cliente := Clientes.AdicionarEnderecoEntrega(cliente, entrega);
      repo.Save(cliente);
      return Returns(CLIENTE_CADASTRADO);
    }

    /** `alterarDadosCliente`: name (trimmed), birth date and gender, after the same checks as sign-up. */
    method AlterarDadosCliente(clienteId: string, nome: Option<string>, dataNascimento: Option<string>,
                               genero: Option<string>, hoje: Data) returns (r: string)
      modifies repo
      ensures old(repo.FindById(clienteId)).None? ==> r == CLIENTE_NAO_ENCONTRADO
      ensures old(repo.FindById(clienteId)).Some? && !NomeValido(nome) ==> r == MSG_NOME
      ensures (old(repo.FindById(clienteId)).Some? && NomeValido(nome)
        && DataNascimento(oraculos.analisarData, dataNascimento, hoje).None?) ==> r == DATA_INVALIDA
      ensures (old(repo.FindById(clienteId)).Some? && NomeValido(nome)
        && DataNascimento(oraculos.analisarData, dataNascimento, hoje).Some? && !GeneroValido(genero)) ==> r == GENERO_INVALIDO
      ensures r == DADOS_ALTERADOS <==>
        old(repo.FindById(clienteId)).Some? && NomeValido(nome)
        && DataNascimento(oraculos.analisarData, dataNascimento, hoje).Some? && GeneroValido(genero)
      ensures r == DADOS_ALTERADOS ==>
        repo.clientes == Salvar(old(repo.clientes),
                                old(repo.FindById(clienteId)).value.(nome := Some(Trim(nome.value)),
                                  dataNascimento := DataNascimento(oraculos.analisarData, dataNascimento, hoje),
                                  genero := genero), IdCliente)
      ensures r != DADOS_ALTERADOS ==> repo.clientes == old(repo.clientes)
      ensures r == MensagemAlteracaoDados(old(repo.FindById(clienteId)).Some?, nome,
                                          DataNascimento(oraculos.analisarData, dataNascimento, hoje), genero)
    {
      var encontrado := repo.FindById(clienteId);
      if encontrado.None? {
        return CLIENTE_NAO_ENCONTRADO;
      }
      var nomeOk := ValidarNome(nome);
      if !nomeOk {
        return MSG_NOME;
      }
      var data := DataNascimento(oraculos.analisarData, dataNascimento, hoje);
      if data.None? {
        return DATA_INVALIDA;
      }
      if !GeneroValido(genero) {
        return GENERO_INVALIDO;
      }
      var cliente := encontrado.value.(nome := Some(Trim(nome.value)), dataNascimento := data, genero := genero);
      repo.Save(cliente);
      return DADOS_ALTERADOS;
    }

    /** `alterarSenhaCliente`: stores the hash of the new password when it is present and confirmed. */
    method AlterarSenhaCliente(clienteId: string, novaSenha: Option<string>, confirmaSenha: Option<string>)
      returns (r: string)
      modifies repo
      ensures old(repo.FindById(clienteId)).None? ==> r == CLIENTE_NAO_ENCONTRADO
      ensures old(repo.FindById(clienteId)).Some? && NullOrBlank(novaSenha) ==> r == NOVA_SENHA_OBRIGATORIA
      ensures old(repo.FindById(clienteId)).Some? && !NullOrBlank(novaSenha) && confirmaSenha != novaSenha ==>
        r == SENHAS_NAO_CONFEREM
      ensures r == SENHA_ALTERADA <==>
        old(repo.FindById(clienteId)).Some? && !NullOrBlank(novaSenha) && confirmaSenha == novaSenha
      ensures r == SENHA_ALTERADA ==>
        repo.clientes == Salvar(old(repo.clientes),
                                old(repo.FindById(clienteId)).value.(senha := Some(oraculos.codificar(novaSenha.value))),
                                IdCliente)
      ensures r != SENHA_ALTERADA ==> repo.clientes == old(repo.clientes)
    {
      var encontrado := repo.FindById(clienteId);
      if encontrado.None? {
        return CLIENTE_NAO_ENCONTRADO;
      }
      if NullOrBlank(novaSenha) {
        return NOVA_SENHA_OBRIGATORIA;
      }
      if confirmaSenha != novaSenha {
        return SENHAS_NAO_CONFEREM;
      }
      repo.Save(encontrado.value.(senha := Some(oraculos.codificar(novaSenha.value))));
      return SENHA_ALTERADA;
    }

    /**
     * `adicionarEnderecoEntrega`: looks the postal code up, completes and
     * checks the address, clears the other defaults when the new one is to
     * be the default, appends it and saves.
     */
    method AdicionarEnderecoEntrega(clienteId: string, cep: Option<string>, numero: Option<string>,
                                    complemento: Option<string>, definirComoPadrao: bool, novoId: string)
      returns (r: string)
      modifies repo
      ensures old(repo.FindById(clienteId)).None? ==> r == CLIENTE_NAO_ENCONTRADO
      ensures old(repo.FindById(clienteId)).Some? && BuscarEnderecoPorCep(oraculos.consultaCep, cep, novoId).None? ==>
        r == CEP_INVALIDO
      ensures r == ENDERECO_ADICIONADO <==>
        && old(repo.FindById(clienteId)).Some?
        && BuscarEnderecoPorCep(oraculos.consultaCep, cep, novoId).Some?
        && EnderecoValido(Some(BuscarEnderecoPorCep(oraculos.consultaCep, cep, novoId).value.(numero := numero, complemento := complemento)))
      ensures r == ENDERECO_ADICIONADO ==>
        repo.clientes == Salvar(old(repo.clientes),
          ComNovoEndereco(old(repo.FindById(clienteId)).value,
            BuscarEnderecoPorCep(oraculos.consultaCep, cep, novoId).value.(numero := numero, complemento := complemento),
            definirComoPadrao), IdCliente)
      ensures r != ENDERECO_ADICIONADO ==> repo.clientes == old(repo.clientes)
      ensures r == MensagemAdicaoEndereco(old(repo.FindById(clienteId)).Some?,
                                          BuscarEnderecoPorCep(oraculos.consultaCep, cep, novoId), numero, complemento)
    {
      var encontrado := repo.FindById(clienteId);
      if encontrado.None? {
        return CLIENTE_NAO_ENCONTRADO;
      }
      var consultado := BuscarEnderecoPorCep(oraculos.consultaCep, cep, novoId);
      if consultado.None? {
        return CEP_INVALIDO;
      }
      var novoEndereco := consultado.value.(numero := numero, complemento := complemento);
      if !EnderecoValido(Some(novoEndereco)) {
        return ENDERECO_INCOMPLETO;
      }
      var cliente := encontrado.value;
      if definirComoPadrao && cliente.enderecosEntrega.Some? {
        var lista := DesmarcarTodos(cliente.enderecosEntrega.value);
        cliente := cliente.(enderecosEntrega := Some(lista));
      }
      cliente := Clientes.AdicionarEnderecoEntrega(cliente, novoEndereco.(padrao := definirComoPadrao));
      assert cliente == ComNovoEndereco(encontrado.value, novoEndereco, definirComoPadrao);
      repo.Save(cliente);
      return ENDERECO_ADICIONADO;
    }

    /**
     * `alterarEnderecoPadrao`: clears every default, then sets the first
     * address with the given id and saves; saves nothing when there is none.
     */
    method AlterarEnderecoPadrao(clienteId: string, enderecoId: string) returns (r: string)
      modifies repo
      ensures old(repo.FindById(clienteId)).None? ==> r == CLIENTE_NAO_ENCONTRADO
      ensures old(repo.FindById(clienteId)).Some? && Entregas(old(repo.FindById(clienteId)).value) == [] ==>
        r == SEM_ENDERECOS
      ensures (old(repo.FindById(clienteId)).Some? && Entregas(old(repo.FindById(clienteId)).value) != []
        && (forall e :: e in Entregas(old(repo.FindById(clienteId)).value) ==> e.id != enderecoId)) ==>
        r == ENDERECO_NAO_ENCONTRADO
      ensures r == PADRAO_ALTERADO <==>
        old(repo.FindById(clienteId)).Some?
        && exists e :: e in Entregas(old(repo.FindById(clienteId)).value) && e.id == enderecoId
      ensures r == PADRAO_ALTERADO ==>
        var c := old(repo.FindById(clienteId)).value;
        repo.clientes == Salvar(old(repo.clientes),
                                c.(enderecosEntrega := Some(MarcarPrimeiro(Entregas(c), enderecoId))), IdCliente)
      ensures r != PADRAO_ALTERADO ==> repo.clientes == old(repo.clientes)
      ensures r == MensagemEnderecoPadrao(old(repo.FindById(clienteId)), enderecoId)
    {
      var encontrado := repo.FindById(clienteId);
      if encontrado.None? {
        return CLIENTE_NAO_ENCONTRADO;
      }
      var cliente := encontrado.value;
      if cliente.enderecosEntrega.None? || |cliente.enderecosEntrega.value| == 0 {
        return SEM_ENDERECOS;
      }
      var lista, enderecoEncontrado := MarcarEndereco(cliente.enderecosEntrega.value, enderecoId);
      if !enderecoEncontrado {
        return ENDERECO_NAO_ENCONTRADO;
      }
      repo.Save(cliente.(enderecosEntrega := Some(lista)));
      return PADRAO_ALTERADO;
    }
  }
}
