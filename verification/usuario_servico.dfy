/**
 * The staff-user service of the backoffice: its own CPF and e-mail checks,
 * login, the listing that numbers users created without a sequential id,
 * and registration, editing, password change and the active/inactive
 * toggle. The password hash is an oracle held by the service; fresh store
 * identifiers are passed in.
 */
module UsuarioServico {
  import opened Wrappers
  import opened Text
  import opened Cpf
  import opened Email
  import opened Usuarios
  import opened Sequencial
  import opened Repositorios
  import ClienteServico

  const NOME_OBRIGATORIO := "Nome é obrigatório"
  const CPF_INVALIDO := "CPF inválido"
  const CPF_JA_CADASTRADO := "CPF já cadastrado"
  const EMAIL_INVALIDO := "Email inválido"
  const EMAIL_JA_CADASTRADO := "Email já cadastrado"
  const SENHA_OBRIGATORIA := "Senha é obrigatória"
  const SENHAS_NAO_CONFEREM := "Senhas não conferem"
  const GRUPO_OBRIGATORIO := "Grupo é obrigatório"
  const USUARIO_CADASTRADO := "Usuário cadastrado com sucesso"
  const USUARIO_NAO_ENCONTRADO := "Usuário não encontrado"
  const CPF_DE_OUTRO := "CPF já cadastrado para outro usuário"
  const USUARIO_ALTERADO := "Usuário alterado com sucesso"
  const NOVA_SENHA_OBRIGATORIA := "Nova senha é obrigatória"
  const SENHA_ALTERADA := "Senha alterada com sucesso"
  const USUARIO_ATIVADO := "Usuário ativado com sucesso"
  const USUARIO_DESATIVADO := "Usuário desativado com sucesso"

  /** The failure messages of registration, in the order the checks run. */
  const MensagensCadastro: seq<string> := [
    NOME_OBRIGATORIO, CPF_INVALIDO, CPF_JA_CADASTRADO, EMAIL_INVALIDO, EMAIL_JA_CADASTRADO,
    SENHA_OBRIGATORIA, SENHAS_NAO_CONFEREM, GRUPO_OBRIGATORIO]

  // ---------------------------------------------------------------- CPF

  /**
   * `validarCpf` of the staff service: the non-digits are removed first, so
   * punctuation is allowed anywhere and only the eleven digits count.
   */
  predicate CpfUsuario(cpf: Option<string>) {
    cpf.Some? && CpfValido(StripNonDigits(cpf.value))
  }

  /** The strip, the length test and the two accumulation loops, in the source's order. */
  method ValidarCpf(cpf: Option<string>) returns (ok: bool)
    ensures ok == CpfUsuario(cpf)
  {
    if cpf.None? {
      return false;
    }
    var digitos := StripNonDigits(cpf.value);
    if |digitos| != 11 {
      return false;
    }
    ok := ConferirDigitos(digitos);
  }

  /** Formatting never changes the answer. */
  lemma CpfFormatacaoIndiferente(cpf: string)
    ensures CpfUsuario(Some(cpf)) == CpfUsuario(Some(StripNonDigits(cpf)))
  {
    StripKeepsDigits(StripNonDigits(cpf));
  }

  /**
   * The two validators agree on bare eleven-digit strings, and everything
   * the customer validator accepts the staff validator accepts too.
   */
  lemma CpfValidadoresConcordam(cpf: Option<string>)
    ensures cpf.Some? && |cpf.value| == 11 && AllDigits(cpf.value) ==>
      ClienteServico.CpfCliente(cpf) == Returns(CpfUsuario(cpf))
    ensures ClienteServico.CpfCliente(cpf) == Returns(true) ==> CpfUsuario(cpf)
  {
  }

  /**
   * A CPF in its written form `ddd.ddd.ddd-dd` is judged here by its
   * digits alone, while the customer validator, whose length test sees
   * fourteen characters, refuses it whatever the digits.
   */
  lemma CpfFormatado(d: string)
    requires |d| == 11 && AllDigits(d)
    ensures CpfUsuario(Some(Formatado(d))) == CpfValido(d)
    ensures ClienteServico.CpfCliente(Some(Formatado(d))) == Returns(false)
  {
    FormatadoSemPontuacao(d);
  }

  /** The formatted CPF of the test suites, "111.444.777-35", is accepted here. */
  lemma CpfFormatadoAceito()
    ensures Formatado("11144477735") == "111.444.777-35"
    ensures CpfUsuario(Some("111.444.777-35"))
    ensures ClienteServico.CpfCliente(Some("111.444.777-35")) == Returns(false)
  {
    CpfFormatado("11144477735");
    ValidoExemplo();
  }

  // ---------------------------------------------------------------- sequential ids

  /** How many of the first `n` users of `s` have no sequential id. */
  function SemId(s: seq<Usuario>, n: nat): (k: nat)
    requires n <= |s|
    ensures k <= n
  {
    if n == 0 then 0
    else SemId(s, n - 1) + (if s[n - 1].sequencialId.None? then 1 else 0)
  }

  /** User `i` after the backfill: the k-th user without an id gets `maior + k`. */
  function Numerado(s: seq<Usuario>, maior: int, i: nat): (u: Usuario)
    requires i < |s|
    ensures u.sequencialId.Some?
  {
    if s[i].sequencialId.None? then s[i].(sequencialId := Some(maior + SemId(s, i) + 1)) else s[i]
  }

  /**
   * The users after the `listarTodos` backfill, starting from `maior`: every
   * user has an id, ids already set are kept, and nothing else changes.
   */
  function Numerados(s: seq<Usuario>, maior: int): (r: seq<Usuario>)
    ensures |r| == |s|
  {
    NumeradosAte(s, maior, |s|)
  }

  /** The first `n` users after the backfill. */
  function NumeradosAte(s: seq<Usuario>, maior: int, n: nat): (r: seq<Usuario>)
    requires n <= |s|
    ensures |r| == n
  {
    if n == 0 then [] else NumeradosAte(s, maior, n - 1) + [Numerado(s, maior, n - 1)]
  }

  lemma {:induction false} NumeradosAteIndice(s: seq<Usuario>, maior: int, n: nat, i: nat)
    requires i < n <= |s|
    ensures NumeradosAte(s, maior, n)[i] == Numerado(s, maior, i)
  {
    if i < n - 1 {
      NumeradosAteIndice(s, maior, n - 1, i);
    }
  }

  /** User `i` of the backfilled list is `Numerado(s, maior, i)`. */
  lemma NumeradosIndice(s: seq<Usuario>, maior: int, i: nat)
    requires i < |s|
    ensures Numerados(s, maior)[i] == Numerado(s, maior, i)
  {
    NumeradosAteIndice(s, maior, |s|, i);
  }

  /** After the backfill every user has an id, ids already set are kept, and nothing else changes. */
  lemma NumeradosPreservam(s: seq<Usuario>, maior: int)
    ensures forall i :: 0 <= i < |s| ==> Numerados(s, maior)[i].sequencialId.Some?
    ensures forall i :: 0 <= i < |s| && s[i].sequencialId.Some? ==> Numerados(s, maior)[i] == s[i]
    ensures forall i :: 0 <= i < |s| ==> Numerados(s, maior)[i].(sequencialId := s[i].sequencialId) == s[i]
  {
    forall i | 0 <= i < |s| {
      NumeradosIndice(s, maior, i);
    }
  }

  /** The backfill gives a user without an id the next number after those before it. */
  lemma NumeradoSemId(s: seq<Usuario>, maior: int, i: nat)
    requires i < |s| && s[i].sequencialId.None?
    ensures Numerados(s, maior)[i] == s[i].(sequencialId := Some(maior + SemId(s, i) + 1))
  {
    NumeradosIndice(s, maior, i);
  }

  lemma {:induction false} SemIdMonotono(s: seq<Usuario>, i: nat, j: nat)
    requires i <= j <= |s|
    ensures SemId(s, i) <= SemId(s, j)
    decreases j
  {
    if i < j {
      SemIdMonotono(s, i, j - 1);
    }
  }

  /**
   * The ids handed out are `maior + 1 .. maior + SemId(s, |s|)`, one per
   * user without an id, increasing in list order.
   */
  lemma {:induction false} NumeradosCrescentes(s: seq<Usuario>, maior: int, i: nat, j: nat)
    requires i < j < |s| && s[i].sequencialId.None? && s[j].sequencialId.None?
    ensures maior < Numerado(s, maior, i).sequencialId.value < Numerado(s, maior, j).sequencialId.value <= maior + SemId(s, |s|)
  {
    SemIdMonotono(s, i + 1, j);
    SemIdMonotono(s, j + 1, |s|);
  }

  /**
   * When the ids already present are distinct and none exceeds `maior`,
   * every user has a distinct id after the backfill.
   */
  lemma NumeradosDistintos(s: seq<Usuario>, maior: int)
    requires forall i :: 0 <= i < |s| && s[i].sequencialId.Some? ==> s[i].sequencialId.value <= maior
    requires forall i, j :: 0 <= i < j < |s| && s[i].sequencialId.Some? ==> s[i].sequencialId != s[j].sequencialId
    ensures forall i, j :: 0 <= i < j < |s| ==> Numerados(s, maior)[i].sequencialId != Numerados(s, maior)[j].sequencialId
  {
    var r := Numerados(s, maior);
    NumeradosPreservam(s, maior);
    forall i, j | 0 <= i < j < |s|
      ensures r[i].sequencialId != r[j].sequencialId
    {
      NumeradosIndice(s, maior, i);
      NumeradosIndice(s, maior, j);
      if s[i].sequencialId.None? && s[j].sequencialId.None? {
        NumeradosCrescentes(s, maior, i, j);
      } else if s[i].sequencialId.None? {
        assert r[j] == s[j];
      } else if s[j].sequencialId.None? {
        assert r[i] == s[i];
      }
    }
  }

  /** Listing never creates a duplicate sequential id where there was none. */
  lemma ListagemSemDuplicatas(s: seq<Usuario>)
    requires forall i, j :: 0 <= i < j < |s| && s[i].sequencialId.Some? ==> s[i].sequencialId != s[j].sequencialId
    ensures forall i, j :: 0 <= i < j < |s| ==>
      Numerados(s, MaiorSequencial(s))[i].sequencialId != Numerados(s, MaiorSequencial(s))[j].sequencialId
  {
    NumeradosDistintos(s, MaiorSequencial(s));
  }

  /**
   * The state of the `listarTodos` loop after `i` users: those before `i`
   * are backfilled, the others untouched, and the counter has advanced once
   * per user without an id.
   */
  ghost predicate ListagemParcial(inicial: seq<Usuario>, maior: int, usuarios: seq<Usuario>, i: nat, contador: int) {
    && |usuarios| == |inicial| && i <= |inicial|
    && contador == maior + SemId(inicial, i)
    && (forall j :: 0 <= j < i ==> usuarios[j] == Numerado(inicial, maior, j))
    && (forall j :: i <= j < |usuarios| ==> usuarios[j] == inicial[j])
  }

  lemma ListagemPassoSemId(inicial: seq<Usuario>, maior: int, usuarios: seq<Usuario>, i: nat, contador: int)
    requires ListagemParcial(inicial, maior, usuarios, i, contador) && i < |usuarios|
    requires usuarios[i].sequencialId.None?
    ensures ListagemParcial(inicial, maior, usuarios[i := usuarios[i].(sequencialId := Some(contador + 1))], i + 1, contador + 1)
  {
    assert usuarios[i] == inicial[i];
  }

  lemma ListagemPassoComId(inicial: seq<Usuario>, maior: int, usuarios: seq<Usuario>, i: nat, contador: int)
    requires ListagemParcial(inicial, maior, usuarios, i, contador) && i < |usuarios|
    requires usuarios[i].sequencialId.Some?
    ensures ListagemParcial(inicial, maior, usuarios, i + 1, contador)
  {
    assert usuarios[i] == inicial[i];
  }

  lemma ListagemCompleta(inicial: seq<Usuario>, maior: int, usuarios: seq<Usuario>, contador: int)
    requires ListagemParcial(inicial, maior, usuarios, |inicial|, contador)
    ensures usuarios == Numerados(inicial, maior)
  {
    forall j | 0 <= j < |usuarios|
      ensures usuarios[j] == Numerados(inicial, maior)[j]
    {
      NumeradosIndice(inicial, maior, j);
    }
  }

  /** A second listing changes nothing more. */
  lemma NumeradosIdempotente(s: seq<Usuario>, maior: int, outro: int)
    ensures Numerados(Numerados(s, maior), outro) == Numerados(s, maior)
  {
    var r := Numerados(s, maior);
    NumeradosPreservam(s, maior);
    NumeradosPreservam(r, outro);
    forall i | 0 <= i < |r|
      ensures Numerados(r, outro)[i] == r[i]
    {
    }
  }

  /** The value `listarTodos` starts counting from: the largest id present, or 0. */
  function MaiorSequencial(s: seq<Usuario>): (m: int)
    ensures forall i :: 0 <= i < |s| && s[i].sequencialId.Some? ==> s[i].sequencialId.value <= m
    ensures (forall i :: 0 <= i < |s| ==> s[i].sequencialId.None?) ==> m == 0
    ensures (exists i :: 0 <= i < |s| && s[i].sequencialId.Some?) ==> exists i :: 0 <= i < |s| && s[i].sequencialId == Some(m)
  {
    var ids := seq(|s|, i requires 0 <= i < |s| => s[i].sequencialId);
    assert forall i :: 0 <= i < |s| ==> ids[i] == s[i].sequencialId;
    Maior(ids).GetOr(0)
  }

  // ---------------------------------------------------------------- registration

  /** The registration form; the group arrives already parsed. */
  datatype FormUsuario = FormUsuario(
    nome: Option<string>, cpf: Option<string>, email: Option<string>, grupo: Option<Grupo>,
    senha: Option<string>, confirmaSenha: Option<string>)

  /** The outcome message and the document saved, if any. */
  datatype Desfecho = Desfecho(mensagem: string, novo: Option<Usuario>)

  predicate CpfEmUso(usuarios: seq<Usuario>, cpf: Option<string>) {
    exists u :: u in usuarios && u.cpf == cpf
  }

  predicate EmailEmUso(usuarios: seq<Usuario>, email: Option<string>) {
    exists u :: u in usuarios && u.email == email
  }

  /** Check number `k` of registration, in the order of `MensagensCadastro`. */
  predicate Confere(usuarios: seq<Usuario>, f: FormUsuario, k: nat) {
    match k
    case 0 => !NullOrBlank(f.nome)
    case 1 => CpfUsuario(f.cpf)
    case 2 => !CpfEmUso(usuarios, f.cpf)
    case 3 => EmailValido(f.email)
    case 4 => !EmailEmUso(usuarios, f.email)
    case 5 => !NullOrBlank(f.senha)
    case 6 => f.confirmaSenha == f.senha
    case 7 => f.grupo.Some?
    case _ => true
  }

  /**
   * `cadastrarUsuario` as a function of the store's contents, the hash
   * function, a fresh identifier and the next sequential id.
   */
  function Cadastro(codificar: string -> string, usuarios: seq<Usuario>, f: FormUsuario, novoId: string,
                    proximo: int): (r: Desfecho)
    ensures r.novo.Some? <==> r.mensagem == USUARIO_CADASTRADO
    ensures r.novo.Some? ==>
      && f.nome.Some? && f.senha.Some?
      && r.novo.value.id == novoId && r.novo.value.status
      && r.novo.value.sequencialId == Some(proximo)
      && r.novo.value.nome == Some(Trim(f.nome.value))
      && r.novo.value.cpf == f.cpf && r.novo.value.email == f.email
      && r.novo.value.senha == Some(codificar(f.senha.value))
      && GetGrupo(r.novo.value) == f.grupo
  {
    if NullOrBlank(f.nome) then Desfecho(NOME_OBRIGATORIO, None)
    else if !CpfUsuario(f.cpf) then Desfecho(CPF_INVALIDO, None)
    else if CpfEmUso(usuarios, f.cpf) then Desfecho(CPF_JA_CADASTRADO, None)
    else if !EmailValido(f.email) then Desfecho(EMAIL_INVALIDO, None)
    else if EmailEmUso(usuarios, f.email) then Desfecho(EMAIL_JA_CADASTRADO, None)
    else if NullOrBlank(f.senha) then Desfecho(SENHA_OBRIGATORIA, None)
    else if f.confirmaSenha != f.senha then Desfecho(SENHAS_NAO_CONFEREM, None)
    else if f.grupo.None? then Desfecho(GRUPO_OBRIGATORIO, None)
    else
      var u := Usuarios.Novo(novoId, Trim(f.nome.value), f.cpf.value, f.email.value, codificar(f.senha.value), f.grupo);
      GrupoIdaEVolta(u, f.grupo);
      Desfecho(USUARIO_CADASTRADO, Some(u.(sequencialId := Some(proximo))))
  }

  /** Checks 0..k-1 all pass. */
  predicate ConferemAte(usuarios: seq<Usuario>, f: FormUsuario, k: nat) {
    k == 0 || (ConferemAte(usuarios, f, k - 1) && Confere(usuarios, f, k - 1))
  }

  /**
   * The first failing check wins: registration answers the message of
   * check `k` exactly when checks 0..k-1 pass and check `k` fails, and it
   * saves a user exactly when every check passes.
   */
  lemma CadastroPrimeiraFalha(codificar: string -> string, usuarios: seq<Usuario>, f: FormUsuario, novoId: string,
                              proximo: int)
    ensures forall k :: 0 <= k < |MensagensCadastro| ==>
      (Cadastro(codificar, usuarios, f, novoId, proximo) == Desfecho(MensagensCadastro[k], None) <==>
        ConferemAte(usuarios, f, k) && !Confere(usuarios, f, k))
    ensures Cadastro(codificar, usuarios, f, novoId, proximo).novo.Some? <==> ConferemAte(usuarios, f, |MensagensCadastro|)
  {
    var c0 := Confere(usuarios, f, 0);
    var c1 := Confere(usuarios, f, 1);
    var c2 := Confere(usuarios, f, 2);
    var c3 := Confere(usuarios, f, 3);
    var c4 := Confere(usuarios, f, 4);
    var c5 := Confere(usuarios, f, 5);
    var c6 := Confere(usuarios, f, 6);
    var c7 := Confere(usuarios, f, 7);
    assert ConferemAte(usuarios, f, 1) == c0;
    assert ConferemAte(usuarios, f, 2) == (c0 && c1);
    assert ConferemAte(usuarios, f, 3) == (c0 && c1 && c2);
    assert ConferemAte(usuarios, f, 4) == (c0 && c1 && c2 && c3);
    assert ConferemAte(usuarios, f, 5) == (c0 && c1 && c2 && c3 && c4);
    assert ConferemAte(usuarios, f, 6) == (c0 && c1 && c2 && c3 && c4 && c5);
    assert ConferemAte(usuarios, f, 7) == (c0 && c1 && c2 && c3 && c4 && c5 && c6);
    assert ConferemAte(usuarios, f, 8) == (c0 && c1 && c2 && c3 && c4 && c5 && c6 && c7);
  }

  // ---------------------------------------------------------------- editing

  /** The user after a successful `alterarUsuario`: trimmed name, the given CPF and group. */
  function Alterado(u: Usuario, nome: string, cpf: string, grupo: Grupo): (r: Usuario)
    ensures r.nome == Some(Trim(nome)) && r.cpf == Some(cpf) && GetGrupo(r) == Some(grupo)
    ensures r.(nome := u.nome, cpf := u.cpf, grupo := u.grupo) == u
  {
    GrupoIdaEVolta(u, Some(grupo));
    SetGrupo(u.(nome := Some(Trim(nome)), cpf := Some(cpf)), Some(grupo))
  }

  /** The user after `alterarStatus`. */
  function StatusAlternado(u: Usuario): (r: Usuario)
    ensures r.status != u.status && r.(status := u.status) == u
  {
    u.(status := !u.status)
  }

  /** Toggling twice gives the user back. */
  lemma StatusAlternadoDuasVezes(u: Usuario)
    ensures StatusAlternado(StatusAlternado(u)) == u
  {
  }

  // ---------------------------------------------------------------- the service

  class UsuarioService {
    const repo: UsuarioRepository
    const codificar: string -> string
    const confere: (string, string) -> bool

    constructor (repo: UsuarioRepository, codificar: string -> string, confere: (string, string) -> bool)
      ensures this.repo == repo && this.codificar == codificar && this.confere == confere
    {
      this.repo := repo;
      this.codificar := codificar;
      this.confere := confere;
    }

    /**
     * `autenticar`: the user the e-mail lookup finds, when active and the
     * password matches its stored hash (a missing hash never matches).
     */
    function Autenticar(email: Option<string>, senha: string): (r: Option<Usuario>)
      reads repo
      ensures r.Some? ==> r == repo.FindByEmail(email)
      ensures r.Some? ==> r.value.status && r.value.senha.Some? && confere(senha, r.value.senha.value)
      ensures (forall u :: u in repo.usuarios ==> u.email != email) ==> r.None?
      ensures var achado := repo.FindByEmail(email);
        achado.Some? && achado.value.status && achado.value.senha.Some? && confere(senha, achado.value.senha.value) ==>
          r == achado
    {
      match repo.FindByEmail(email)
      case None => None
      case Some(u) =>
        if u.status && u.senha.Some? && confere(senha, u.senha.value) then Some(u) else None
    }

    /**
     * `listarTodos`: numbers, in list order, every user without a sequential
     * id from the largest id present (or 0), saving each, and answers the
     * whole list.
     */
    method ListarTodos() returns (r: seq<Usuario>)
      requires repo.Valid()
      modifies repo
      ensures r == repo.usuarios && repo.Valid()
      ensures r == Numerados(old(repo.usuarios), MaiorSequencial(old(repo.usuarios)))
    {
      var usuarios := repo.usuarios;
      ghost var inicial := usuarios;
      var maiorSequencial := MaiorSequencial(usuarios);
      ghost var m0 := maiorSequencial;
      var houveAtualizacao := false;
      var i := 0;
      while i < |usuarios|
        invariant i <= |usuarios| && ListagemParcial(inicial, m0, usuarios, i, maiorSequencial)
        invariant repo.usuarios == usuarios && repo.Valid()
      {
        if usuarios[i].sequencialId == None {
          ListagemPassoSemId(inicial, m0, usuarios, i, maiorSequencial);
          maiorSequencial := maiorSequencial + 1;
          var u := usuarios[i].(sequencialId := Some(maiorSequencial));
          SalvarNoLugar(usuarios, i, u, IdUsuario);
          usuarios := usuarios[i := u];
          repo.Save(u);
          houveAtualizacao := true;
        } else {
          ListagemPassoComId(inicial, m0, usuarios, i, maiorSequencial);
        }
        i := i + 1;
      }
      ListagemCompleta(inicial, m0, usuarios, maiorSequencial);
      if houveAtualizacao {
        usuarios := repo.usuarios;
      }
      r := usuarios;
    }

    /** `gerarProximoSequencialId`: the largest id present + 1, or 1. */
    function ProximoSequencialId(): (n: int)
      reads repo
      ensures forall u :: u in repo.usuarios && u.sequencialId.Some? ==> u.sequencialId.value < n
      ensures (forall u :: u in repo.usuarios ==> u.sequencialId.None?) ==> n == 1
    {
      Proximo(repo.SequenciaisIds())
    }

    /** `cadastrarUsuario`: saves the new user only when every check passes. */
    method CadastrarUsuario(f: FormUsuario, novoId: string) returns (r: string)
      modifies repo
      ensures r == Cadastro(codificar, old(repo.usuarios), f, novoId, old(ProximoSequencialId())).mensagem
      ensures repo.usuarios ==
        match Cadastro(codificar, old(repo.usuarios), f, novoId, old(ProximoSequencialId())).novo
        case Some(u) => Salvar(old(repo.usuarios), u, IdUsuario)
        case None => old(repo.usuarios)
    {
      if NullOrBlank(f.nome) {
        return NOME_OBRIGATORIO;
      }
      var cpfOk := ValidarCpf(f.cpf);
      if !cpfOk {
        return CPF_INVALIDO;
      }
      if repo.ExistsByCpf(f.cpf) {
        return CPF_JA_CADASTRADO;
      }
      if !EmailValido(f.email) {
        return EMAIL_INVALIDO;
      }
      if repo.ExistsByEmail(f.email) {
        return EMAIL_JA_CADASTRADO;
      }
      if NullOrBlank(f.senha) {
        return SENHA_OBRIGATORIA;
      }
      if f.confirmaSenha != f.senha {
        return SENHAS_NAO_CONFEREM;
      }
      if f.grupo.None? {
        return GRUPO_OBRIGATORIO;
      }
      var usuario := Usuarios.Novo(novoId, Trim(f.nome.value), f.cpf.value, f.email.value,
                                   codificar(f.senha.value), f.grupo);
      usuario := usuario.(sequencialId := Some(ProximoSequencialId()));
      repo.Save(usuario);
      return USUARIO_CADASTRADO;
    }

    /**
     * `alterarUsuario`: existence first, then name, CPF, a CPF held by
     * someone else (only when it differs from the user's own), and group.
     */
    method AlterarUsuario(sequencialId: Option<int>, nome: Option<string>, cpf: Option<string>, grupo: Option<Grupo>)
      returns (r: string)
      modifies repo
      ensures old(repo.FindBySequencialId(sequencialId)).None? ==> r == USUARIO_NAO_ENCONTRADO
      ensures old(repo.FindBySequencialId(sequencialId)).Some? && NullOrBlank(nome) ==> r == NOME_OBRIGATORIO
      ensures (old(repo.FindBySequencialId(sequencialId)).Some? && !NullOrBlank(nome) && !CpfUsuario(cpf)) ==>
        r == CPF_INVALIDO
      ensures r == CPF_DE_OUTRO <==>
        && old(repo.FindBySequencialId(sequencialId)).Some? && !NullOrBlank(nome) && CpfUsuario(cpf)
        && cpf != old(repo.FindBySequencialId(sequencialId)).value.cpf && CpfEmUso(old(repo.usuarios), cpf)
      ensures r == USUARIO_ALTERADO <==>
        && old(repo.FindBySequencialId(sequencialId)).Some? && !NullOrBlank(nome) && CpfUsuario(cpf)
        && (cpf == old(repo.FindBySequencialId(sequencialId)).value.cpf || !CpfEmUso(old(repo.usuarios), cpf))
        && grupo.Some?
      ensures r == USUARIO_ALTERADO ==>
        repo.usuarios == Salvar(old(repo.usuarios),
          Alterado(old(repo.FindBySequencialId(sequencialId)).value, nome.value, cpf.value, grupo.value), IdUsuario)
      ensures r != USUARIO_ALTERADO ==> repo.usuarios == old(repo.usuarios)
    {
      var encontrado := repo.FindBySequencialId(sequencialId);
      if encontrado.None? {
        return USUARIO_NAO_ENCONTRADO;
      }
      var usuario := encontrado.value;
      if NullOrBlank(nome) {
        return NOME_OBRIGATORIO;
      }
      var cpfOk := ValidarCpf(cpf);
      if !cpfOk {
        return CPF_INVALIDO;
      }
      if cpf != usuario.cpf && repo.ExistsByCpf(cpf) {
        return CPF_DE_OUTRO;
      }
      if grupo.None? {
        return GRUPO_OBRIGATORIO;
      }
      usuario := usuario.(nome := Some(Trim(nome.value)), cpf := cpf);
      usuario := SetGrupo(usuario, grupo);
      repo.Save(usuario);
      return USUARIO_ALTERADO;
    }

    /** `alterarSenha`: stores the hash of the new password when it is present and confirmed. */
    method AlterarSenha(sequencialId: Option<int>, novaSenha: Option<string>, confirmaSenha: Option<string>)
      returns (r: string)
      modifies repo
      ensures old(repo.FindBySequencialId(sequencialId)).None? ==> r == USUARIO_NAO_ENCONTRADO
      ensures old(repo.FindBySequencialId(sequencialId)).Some? && NullOrBlank(novaSenha) ==> r == NOVA_SENHA_OBRIGATORIA
      ensures (old(repo.FindBySequencialId(sequencialId)).Some? && !NullOrBlank(novaSenha) && confirmaSenha != novaSenha) ==>
        r == SENHAS_NAO_CONFEREM
      ensures r == SENHA_ALTERADA <==>
        old(repo.FindBySequencialId(sequencialId)).Some? && !NullOrBlank(novaSenha) && confirmaSenha == novaSenha
      ensures r == SENHA_ALTERADA ==>
        repo.usuarios == Salvar(old(repo.usuarios),
          old(repo.FindBySequencialId(sequencialId)).value.(senha := Some(codificar(novaSenha.value))), IdUsuario)
      ensures r != SENHA_ALTERADA ==> repo.usuarios == old(repo.usuarios)
    {
      var encontrado := repo.FindBySequencialId(sequencialId);
      if encontrado.None? {
        return USUARIO_NAO_ENCONTRADO;
      }
      if NullOrBlank(novaSenha) {
        return NOVA_SENHA_OBRIGATORIA;
      }
      if confirmaSenha != novaSenha {
        return SENHAS_NAO_CONFEREM;
      }
      repo.Save(encontrado.value.(senha := Some(codificar(novaSenha.value))));
      return SENHA_ALTERADA;
    }

    /** `alterarStatus`: flips the active flag and reports the new value. */
    method AlterarStatus(sequencialId: Option<int>) returns (r: string)
      modifies repo
      ensures old(repo.FindBySequencialId(sequencialId)).None? ==>
        r == USUARIO_NAO_ENCONTRADO && repo.usuarios == old(repo.usuarios)
      ensures old(repo.FindBySequencialId(sequencialId)).Some? ==>
        var u := old(repo.FindBySequencialId(sequencialId)).value;
        && repo.usuarios == Salvar(old(repo.usuarios), StatusAlternado(u), IdUsuario)
        && (r == USUARIO_ATIVADO <==> !u.status)
        && (r == USUARIO_DESATIVADO <==> u.status)
    {
      var encontrado := repo.FindBySequencialId(sequencialId);
      if encontrado.None? {
        return USUARIO_NAO_ENCONTRADO;
      }
      var usuario := encontrado.value.(status := !encontrado.value.status);
      repo.Save(usuario);
      return if usuario.status then USUARIO_ATIVADO else USUARIO_DESATIVADO;
    }
  }
}
