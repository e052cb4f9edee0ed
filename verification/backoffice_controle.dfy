/**
 * The staff back office: the session and role gates, the user-management
 * menu (the action box, the option menu, the "N" cancel on every edit
 * form, the group name typed on the forms) and the order-status pages.
 * The logged-in staff user is the session attribute "usuarioLogado",
 * passed in as `logado`.
 */
module BackofficeControle {
  import opened Wrappers
  import opened Text
  import opened Tempo
  import opened Usuarios
  import opened Pedidos
  import opened Repositorios
  import opened Sessoes
  import UsuarioServico
  import PedidoServico

  const PARA_BACKOFFICE_LOGIN := "/backoffice/login"
  const PARA_LOGIN := "/login"
  const PARA_BACKOFFICE := "/backoffice"
  const ACESSO_NEGADO := "/backoffice?erro=Acesso negado"
  const ACESSO_NEGADO_LISTAGEM := "/backoffice?erro=Acesso negado. Apenas administradores podem listar usuários"
  const PARA_USUARIOS := "/usuarios"
  const PARA_CADASTRAR := "/usuarios/cadastrar"
  const ID_INVALIDO := "/usuarios?erro=ID deve ser um número válido"
  const PARA_USUARIO_NAO_ENCONTRADO := "/usuarios?erro=Usuário não encontrado"
  const PARA_PEDIDO_NAO_ENCONTRADO := "/pedidos?erro=Pedido não encontrado"
  const GRUPO_INVALIDO := "Grupo inválido"

  const VISTA_BACKOFFICE := "backoffice"
  const VISTA_USUARIOS := "usuarios/listar"
  const VISTA_CADASTRAR := "usuarios/cadastrar"
  const VISTA_OPCOES := "usuarios/opcoes"
  const VISTA_ALTERAR := "usuarios/alterar"
  const VISTA_SENHA := "usuarios/senha"
  const VISTA_STATUS := "usuarios/status"
  const VISTA_PEDIDOS := "pedidos/listar"
  const VISTA_EDITAR_PEDIDO := "pedidos/editar"

  // ---------------------------------------------------------------- gates

  /** `isAdmin`: the stored group reads back as ADMINISTRADOR. */
  predicate IsAdmin(u: Usuario) {
    GetGrupo(u) == Some(ADMINISTRADOR)
  }

  /** Only a stored group named exactly "ADMINISTRADOR" makes an administrator. */
  lemma IsAdminPorNome(u: Usuario)
    ensures IsAdmin(u) <==> u.grupo == Some("ADMINISTRADOR")
  {
  }

  /**
   * The gate of the user-management handlers: an anonymous session is sent
   * to `paraLogin`, a logged-in user of another group to `negado`; `None`
   * lets the request through.
   */
  function PortaoAdmin(logado: Option<Usuario>, paraLogin: string, negado: string): (r: Option<Resposta>)
    ensures r.None? <==> logado.Some? && IsAdmin(logado.value)
    ensures logado.None? ==> r == Some(Redirecionar(paraLogin))
    ensures logado.Some? && !IsAdmin(logado.value) ==> r == Some(Redirecionar(negado))
  {
    if logado.None? then Some(Redirecionar(paraLogin))
    else if !IsAdmin(logado.value) then Some(Redirecionar(negado))
    else None
  }

  /** A stock clerk is turned away from user management but let into the order pages. */
  lemma EstoquistaSoPedidos(u: Usuario, id: string)
    requires u.grupo == Some("ESTOQUISTA")
    ensures PortaoAdmin(Some(u), PARA_BACKOFFICE_LOGIN, ACESSO_NEGADO) == Some(Redirecionar(ACESSO_NEGADO))
    ensures PortaoAdmin(Some(u), PARA_LOGIN, ACESSO_NEGADO) == Some(Redirecionar(ACESSO_NEGADO))
    ensures PortaoPedidos(Some(u)).None?
  {
  }

  /** The gate of the order pages: any logged-in staff user, of either group. */
  function PortaoPedidos(logado: Option<Usuario>): (r: Option<Resposta>)
    ensures r.None? <==> logado.Some?
    ensures r.Some? ==> r.value == Redirecionar(PARA_BACKOFFICE_LOGIN)
  {
    if logado.None? then Some(Redirecionar(PARA_BACKOFFICE_LOGIN)) else None
  }

  /** `backoffice`: the home page for any logged-in staff user. */
  function Inicio(logado: Option<Usuario>): (r: Resposta)
    ensures r == Exibir(VISTA_BACKOFFICE, None) <==> logado.Some?
    ensures logado.None? ==> r == Redirecionar(PARA_BACKOFFICE_LOGIN)
  {
    match PortaoPedidos(logado)
    case Some(negado) => negado
    case None => Exibir(VISTA_BACKOFFICE, None)
  }

  // ---------------------------------------------------------------- menu dispatch

  /** The options page of the user with sequential id `id`. */
  function PaginaOpcoes(id: int): string {
    "/usuarios/" + LongToString(id) + "/opcoes"
  }

  /** `acao.toUpperCase()` is "I" (outside the Turkish locale): "I", "i" or the dotless "ı". */
  predicate MaiusculaI(acao: string) {
    acao == "I" || acao == "i" || acao == "ı"
  }

  /**
   * `processarAcaoUsuario` past the gate: "0" goes back to the back
   * office, "I" to registration, a 64-bit number to that user's options
   * (printed back in canonical form), anything else is an error.
   */
  function RotaAcao(acao: string): (destino: string)
    ensures destino == PARA_BACKOFFICE <==> acao == "0"
    ensures destino == PARA_CADASTRAR <==> MaiusculaI(acao)
    ensures destino == ID_INVALIDO <==> acao != "0" && !MaiusculaI(acao) && ParseLong(acao).None?
    ensures acao != "0" && !MaiusculaI(acao) && ParseLong(acao).Some? ==> destino == PaginaOpcoes(ParseLong(acao).value)
  {
    if acao == "0" then PARA_BACKOFFICE
    else if MaiusculaI(acao) then PARA_CADASTRAR
    else match ParseLong(acao)
      case Some(n) =>
        assert PaginaOpcoes(n)[1] == 'u' != PARA_BACKOFFICE[1];
        assert PaginaOpcoes(n)[..10] == "/usuarios/" && PARA_CADASTRAR[..10] == "/usuarios/";
        assert PaginaOpcoes(n)[10] == LongToString(n)[0] != 'c' == PARA_CADASTRAR[10];
        assert PaginaOpcoes(n)[9] == '/' != ID_INVALIDO[9];
        PaginaOpcoes(n)
      case None => ID_INVALIDO
  }

  /** Every user number other than 0 typed in its canonical form leads to that user's options. */
  lemma AcaoNumerica(n: int)
    requires MinLong <= n <= MaxLong && n != 0
    ensures RotaAcao(LongToString(n)) == PaginaOpcoes(n)
  {
    ParseLongOfLongToString(n);
    assert LongToString(n)[0] == '-' || IsDigit(LongToString(n)[0]);
  }

  /** `processarOpcaoUsuario` past the gate: options 1–4 and, for any other number, the options page with an error. */
  function RotaOpcao(id: int, opcao: int): (destino: string)
    ensures opcao == 1 ==> destino == "/usuarios/" + LongToString(id) + "/alterar"
    ensures opcao == 2 ==> destino == "/usuarios/" + LongToString(id) + "/senha"
    ensures opcao == 3 ==> destino == "/usuarios/" + LongToString(id) + "/status"
    ensures opcao == 4 <==> destino == PARA_USUARIOS
    ensures opcao < 1 || 4 < opcao ==> destino == PaginaOpcoes(id) + "?erro=Opção inválida"
  {
    var base := "/usuarios/" + LongToString(id);
    if opcao == 1 then base + "/alterar"
    else if opcao == 2 then base + "/senha"
    else if opcao == 3 then base + "/status"
    else if opcao == 4 then PARA_USUARIOS
    else PaginaOpcoes(id) + "?erro=Opção inválida"
  }

  /** The four options lead to four different places, none of them the error. */
  lemma OpcoesDistintas(id: int, a: int, b: int)
    requires 1 <= a <= 4 && 1 <= b <= 5 && a != b
    ensures RotaOpcao(id, a) != RotaOpcao(id, b)
  {
    var n := |LongToString(id)|;
    assert |RotaOpcao(id, 1)| == n + 18 && |RotaOpcao(id, 2)| == n + 16 && |RotaOpcao(id, 3)| == n + 17;
    assert |RotaOpcao(id, 5)| == n + 37;
  }

  /** `"N".equalsIgnoreCase(salvar)`: the edit form was left without saving. */
  predicate Cancelado(salvar: string) {
    salvar == "N" || salvar == "n"
  }

  /**
   * After a failed edit the page is redrawn with the user reloaded by
   * `buscarPorSequencialId(id).get()`: when the user does not exist, `get`
   * throws.
   */
  function RecarregarUsuario(achado: Option<Usuario>, vista: string, erro: string): (r: Checked<Resposta>)
    ensures r.Throws? <==> achado.None?
    ensures r.Throws? ==> r.exception == NoSuchElement
    ensures r.Returns? ==> r.value == Exibir(vista, Some(erro))
  {
    if achado.None? then Throws(NoSuchElement) else Returns(Exibir(vista, Some(erro)))
  }

  /**
   * The reload as evidently intended: a missing user gets the same
   * "Usuário não encontrado" redirect as the pages that show the form.
   */
  function RecarregarUsuarioCorrigido(achado: Option<Usuario>, vista: string, erro: string): (r: Checked<Resposta>)
    ensures r.Returns?
    ensures achado.None? ==> r.value == Redirecionar(PARA_USUARIO_NAO_ENCONTRADO)
    ensures achado.Some? ==> r == RecarregarUsuario(achado, vista, erro)
  {
    if achado.None? then Returns(Redirecionar(PARA_USUARIO_NAO_ENCONTRADO)) else Returns(Exibir(vista, Some(erro)))
  }

  /** The status page offers the opposite of the user's current state. */
  function AcaoStatus(u: Usuario): (acao: string)
    ensures acao == "Desativar" <==> u.status
    ensures acao == "Ativar" <==> !u.status
  {
    if u.status then "Desativar" else "Ativar"
  }

  // ---------------------------------------------------------------- the controller

  class BackofficeController {
    const usuarioService: UsuarioServico.UsuarioService
    const pedidoService: PedidoServico.PedidoService

    constructor (usuarioService: UsuarioServico.UsuarioService, pedidoService: PedidoServico.PedidoService)
      ensures this.usuarioService == usuarioService && this.pedidoService == pedidoService
    {
      this.usuarioService := usuarioService;
      this.pedidoService := pedidoService;
    }

    /** `listarUsuarios`: administrators only; the listing numbers users that lack a sequential id. */
    method ListarUsuarios(logado: Option<Usuario>) returns (r: Resposta, usuarios: seq<Usuario>)
      requires usuarioService.repo.Valid()
      modifies usuarioService.repo
      ensures usuarioService.repo.Valid()
      ensures var portao := PortaoAdmin(logado, PARA_BACKOFFICE_LOGIN, ACESSO_NEGADO_LISTAGEM);
        portao.Some? ==> r == portao.value && usuarios == [] && usuarioService.repo.usuarios == old(usuarioService.repo.usuarios)
      ensures PortaoAdmin(logado, PARA_BACKOFFICE_LOGIN, ACESSO_NEGADO_LISTAGEM).None? ==>
        && r == Exibir(VISTA_USUARIOS, None) && usuarios == usuarioService.repo.usuarios
        && usuarios == UsuarioServico.Numerados(old(usuarioService.repo.usuarios),
                                                UsuarioServico.MaiorSequencial(old(usuarioService.repo.usuarios)))
    {
      var portao := PortaoAdmin(logado, PARA_BACKOFFICE_LOGIN, ACESSO_NEGADO_LISTAGEM);
      if portao.Some? {
        return portao.value, [];
      }
      usuarios := usuarioService.ListarTodos();
      r := Exibir(VISTA_USUARIOS, None);
    }

    /** `processarAcaoUsuario`: the gate, then the menu dispatch. */
    function ProcessarAcaoUsuario(logado: Option<Usuario>, acao: string): (r: Resposta)
      ensures var portao := PortaoAdmin(logado, PARA_BACKOFFICE_LOGIN, ACESSO_NEGADO);
        portao.Some? ==> r == portao.value
      ensures PortaoAdmin(logado, PARA_BACKOFFICE_LOGIN, ACESSO_NEGADO).None? ==> r == Redirecionar(RotaAcao(acao))
    {
      match PortaoAdmin(logado, PARA_BACKOFFICE_LOGIN, ACESSO_NEGADO)
      case Some(negado) => negado
      case None => Redirecionar(RotaAcao(acao))
    }

    /** `cadastrarUsuario` (the form page): administrators only. */
    function PaginaCadastro(logado: Option<Usuario>): (r: Resposta)
      ensures r == Exibir(VISTA_CADASTRAR, None) <==> logado.Some? && IsAdmin(logado.value)
      ensures logado.None? ==> r == Redirecionar(PARA_BACKOFFICE_LOGIN)
    {
      match PortaoAdmin(logado, PARA_BACKOFFICE_LOGIN, ACESSO_NEGADO)
      case Some(negado) => negado
      case None => Exibir(VISTA_CADASTRAR, None)
    }

    /**
     * `processarCadastro`: the gate; a group name that is no constant is
     * refused before the service is called; otherwise the service decides.
     */
    method ProcessarCadastro(logado: Option<Usuario>, nome: string, cpf: string, email: string, grupo: string,
                             senha: string, confirmaSenha: string, novoId: string) returns (r: Resposta)
      modifies usuarioService.repo
      ensures var portao := PortaoAdmin(logado, PARA_BACKOFFICE_LOGIN, ACESSO_NEGADO);
        portao.Some? ==> r == portao.value && usuarioService.repo.usuarios == old(usuarioService.repo.usuarios)
      ensures PortaoAdmin(logado, PARA_BACKOFFICE_LOGIN, ACESSO_NEGADO).None? && GrupoValueOf(grupo).None? ==>
        r == Exibir(VISTA_CADASTRAR, Some(GRUPO_INVALIDO))
        && usuarioService.repo.usuarios == old(usuarioService.repo.usuarios)
      ensures PortaoAdmin(logado, PARA_BACKOFFICE_LOGIN, ACESSO_NEGADO).None? && GrupoValueOf(grupo).Some? ==>
        var f := UsuarioServico.FormUsuario(Some(nome), Some(cpf), Some(email), GrupoValueOf(grupo), Some(senha),
                                            Some(confirmaSenha));
        var d := UsuarioServico.Cadastro(usuarioService.codificar, old(usuarioService.repo.usuarios), f, novoId,
                                         old(usuarioService.ProximoSequencialId()));
        && (d.mensagem == UsuarioServico.USUARIO_CADASTRADO ==> r == Redirecionar("/usuarios?sucesso=" + d.mensagem))
        && (d.mensagem != UsuarioServico.USUARIO_CADASTRADO ==> r == Exibir(VISTA_CADASTRAR, Some(d.mensagem)))
        && usuarioService.repo.usuarios ==
             match d.novo
             case Some(u) => Salvar(old(usuarioService.repo.usuarios), u, IdUsuario)
             case None => old(usuarioService.repo.usuarios)
    {
      var portao := PortaoAdmin(logado, PARA_BACKOFFICE_LOGIN, ACESSO_NEGADO);
      if portao.Some? {
        return portao.value;
      }
      var grupoEnum := GrupoValueOf(grupo);
      if grupoEnum.None? {
        return Exibir(VISTA_CADASTRAR, Some(GRUPO_INVALIDO));
      }
      var resultado := usuarioService.CadastrarUsuario(
        UsuarioServico.FormUsuario(Some(nome), Some(cpf), Some(email), grupoEnum, Some(senha), Some(confirmaSenha)), novoId);
      if resultado == UsuarioServico.USUARIO_CADASTRADO {
        return Redirecionar("/usuarios?sucesso=" + resultado);
      }
      return Exibir(VISTA_CADASTRAR, Some(resultado));
    }

    /**
     * The pages that show one user (options, edit form, password form,
     * status form): the gate with /login for an anonymous session, then
     * the lookup by sequential id.
     */
    function PaginaDeUsuario(logado: Option<Usuario>, id: int, vista: string): (r: Resposta)
      reads usuarioService.repo
      ensures var portao := PortaoAdmin(logado, PARA_LOGIN, ACESSO_NEGADO);
        portao.Some? ==> r == portao.value
      ensures PortaoAdmin(logado, PARA_LOGIN, ACESSO_NEGADO).None? ==>
        && (usuarioService.repo.FindBySequencialId(Some(id)).Some? ==> r == Exibir(vista, None))
        && (usuarioService.repo.FindBySequencialId(Some(id)).None? ==> r == Redirecionar(PARA_USUARIO_NAO_ENCONTRADO))
    {
      match PortaoAdmin(logado, PARA_LOGIN, ACESSO_NEGADO)
      case Some(negado) => negado
      case None =>
        if usuarioService.repo.FindBySequencialId(Some(id)).None? then Redirecionar(PARA_USUARIO_NAO_ENCONTRADO)
        else Exibir(vista, None)
    }

    /** `processarOpcaoUsuario`: the gate, then the option dispatch. */
    function ProcessarOpcaoUsuario(logado: Option<Usuario>, id: int, opcao: int): (r: Resposta)
      ensures var portao := PortaoAdmin(logado, PARA_LOGIN, ACESSO_NEGADO);
        portao.Some? ==> r == portao.value
      ensures PortaoAdmin(logado, PARA_LOGIN, ACESSO_NEGADO).None? ==> r == Redirecionar(RotaOpcao(id, opcao))
    {
      match PortaoAdmin(logado, PARA_LOGIN, ACESSO_NEGADO)
      case Some(negado) => negado
      case None => Redirecionar(RotaOpcao(id, opcao))
    }

    /**
     * `processarAlteracao`: the gate, the "N" cancel, the group name, then
     * the service. A failure redraws the form with the user reloaded, which
     * throws exactly when the user does not exist.
     */
    method ProcessarAlteracao(logado: Option<Usuario>, id: int, nome: string, cpf: string, grupo: string, salvar: string)
      returns (r: Checked<Resposta>)
      modifies usuarioService.repo
      ensures var portao := PortaoAdmin(logado, PARA_LOGIN, ACESSO_NEGADO);
        portao.Some? ==> r == Returns(portao.value) && usuarioService.repo.usuarios == old(usuarioService.repo.usuarios)
      ensures PortaoAdmin(logado, PARA_LOGIN, ACESSO_NEGADO).None? && Cancelado(salvar) ==>
        r == Returns(Redirecionar(PaginaOpcoes(id))) && usuarioService.repo.usuarios == old(usuarioService.repo.usuarios)
      ensures PortaoAdmin(logado, PARA_LOGIN, ACESSO_NEGADO).None? && !Cancelado(salvar) && GrupoValueOf(grupo).None? ==>
        && r == RecarregarUsuario(old(usuarioService.repo.FindBySequencialId(Some(id))), VISTA_ALTERAR, GRUPO_INVALIDO)
        && usuarioService.repo.usuarios == old(usuarioService.repo.usuarios)
      ensures r.Throws? <==>
        PortaoAdmin(logado, PARA_LOGIN, ACESSO_NEGADO).None? && !Cancelado(salvar)
        && old(usuarioService.repo.FindBySequencialId(Some(id))).None?
      ensures r.Throws? ==> r.exception == NoSuchElement && usuarioService.repo.usuarios == old(usuarioService.repo.usuarios)
      ensures r == Returns(Redirecionar(PaginaOpcoes(id) + "?sucesso=" + UsuarioServico.USUARIO_ALTERADO)) <==>
        && PortaoAdmin(logado, PARA_LOGIN, ACESSO_NEGADO).None? && !Cancelado(salvar) && GrupoValueOf(grupo).Some?
        && old(usuarioService.repo.FindBySequencialId(Some(id))).Some? && !IsBlank(nome)
        && UsuarioServico.CpfUsuario(Some(cpf))
        && (Some(cpf) == old(usuarioService.repo.FindBySequencialId(Some(id))).value.cpf
            || !UsuarioServico.CpfEmUso(old(usuarioService.repo.usuarios), Some(cpf)))
      ensures r == Returns(Redirecionar(PaginaOpcoes(id) + "?sucesso=" + UsuarioServico.USUARIO_ALTERADO)) ==>
        usuarioService.repo.usuarios == Salvar(old(usuarioService.repo.usuarios),
          UsuarioServico.Alterado(old(usuarioService.repo.FindBySequencialId(Some(id))).value, nome, cpf,
                                  GrupoValueOf(grupo).value), IdUsuario)
      ensures r != Returns(Redirecionar(PaginaOpcoes(id) + "?sucesso=" + UsuarioServico.USUARIO_ALTERADO)) ==>
        usuarioService.repo.usuarios == old(usuarioService.repo.usuarios)
    {
      var portao := PortaoAdmin(logado, PARA_LOGIN, ACESSO_NEGADO);
      if portao.Some? {
        return Returns(portao.value);
      }
      if Cancelado(salvar) {
        assert PaginaOpcoes(id) != PaginaOpcoes(id) + "?sucesso=" + UsuarioServico.USUARIO_ALTERADO;
        return Returns(Redirecionar(PaginaOpcoes(id)));
      }
      var grupoEnum := GrupoValueOf(grupo);
      if grupoEnum.None? {
        return RecarregarUsuario(usuarioService.repo.FindBySequencialId(Some(id)), VISTA_ALTERAR, GRUPO_INVALIDO);
      }
      var resultado := usuarioService.AlterarUsuario(Some(id), Some(nome), Some(cpf), grupoEnum);
      if resultado == UsuarioServico.USUARIO_ALTERADO {
        return Returns(Redirecionar(PaginaOpcoes(id) + "?sucesso=" + resultado));
      }
      return RecarregarUsuario(usuarioService.repo.FindBySequencialId(Some(id)), VISTA_ALTERAR, resultado);
    }

    /**
     * `processarAlteracaoSenha`: the gate, the "N" cancel, then the
     * service; a failure reloads the user the same way, throwing exactly
     * when the user does not exist.
     */
    method ProcessarAlteracaoSenha(logado: Option<Usuario>, id: int, novaSenha: string, confirmaSenha: string,
                                   salvar: string) returns (r: Checked<Resposta>)
      modifies usuarioService.repo
      ensures var portao := PortaoAdmin(logado, PARA_LOGIN, ACESSO_NEGADO);
        portao.Some? ==> r == Returns(portao.value) && usuarioService.repo.usuarios == old(usuarioService.repo.usuarios)
      ensures PortaoAdmin(logado, PARA_LOGIN, ACESSO_NEGADO).None? && Cancelado(salvar) ==>
        r == Returns(Redirecionar(PaginaOpcoes(id))) && usuarioService.repo.usuarios == old(usuarioService.repo.usuarios)
      ensures r.Throws? <==>
        PortaoAdmin(logado, PARA_LOGIN, ACESSO_NEGADO).None? && !Cancelado(salvar)
        && old(usuarioService.repo.FindBySequencialId(Some(id))).None?
      ensures r.Throws? ==> r.exception == NoSuchElement && usuarioService.repo.usuarios == old(usuarioService.repo.usuarios)
      ensures r == Returns(Redirecionar(PaginaOpcoes(id) + "?sucesso=" + UsuarioServico.SENHA_ALTERADA)) <==>
        PortaoAdmin(logado, PARA_LOGIN, ACESSO_NEGADO).None? && !Cancelado(salvar)
        && old(usuarioService.repo.FindBySequencialId(Some(id))).Some? && !NullOrBlank(Some(novaSenha))
        && confirmaSenha == novaSenha
      ensures r == Returns(Redirecionar(PaginaOpcoes(id) + "?sucesso=" + UsuarioServico.SENHA_ALTERADA)) ==>
        usuarioService.repo.usuarios == Salvar(old(usuarioService.repo.usuarios),
          old(usuarioService.repo.FindBySequencialId(Some(id))).value.(senha := Some(usuarioService.codificar(novaSenha))),
          IdUsuario)
      ensures r != Returns(Redirecionar(PaginaOpcoes(id) + "?sucesso=" + UsuarioServico.SENHA_ALTERADA)) ==>
        usuarioService.repo.usuarios == old(usuarioService.repo.usuarios)
    {
      var portao := PortaoAdmin(logado, PARA_LOGIN, ACESSO_NEGADO);
      if portao.Some? {
        return Returns(portao.value);
      }
      if Cancelado(salvar) {
        assert PaginaOpcoes(id) != PaginaOpcoes(id) + "?sucesso=" + UsuarioServico.SENHA_ALTERADA;
        return Returns(Redirecionar(PaginaOpcoes(id)));
      }
      var resultado := usuarioService.AlterarSenha(Some(id), Some(novaSenha), Some(confirmaSenha));
      if resultado == UsuarioServico.SENHA_ALTERADA {
        return Returns(Redirecionar(PaginaOpcoes(id) + "?sucesso=" + resultado));
      }
      return RecarregarUsuario(usuarioService.repo.FindBySequencialId(Some(id)), VISTA_SENHA, resultado);
    }

    /** `processarAlteracaoStatus`: the gate, the "N" cancel, then the service, whose answer is reported as success whatever it says. */
    method ProcessarAlteracaoStatus(logado: Option<Usuario>, id: int, salvar: string) returns (r: Resposta)
      modifies usuarioService.repo
      ensures var portao := PortaoAdmin(logado, PARA_LOGIN, ACESSO_NEGADO);
        portao.Some? ==> r == portao.value && usuarioService.repo.usuarios == old(usuarioService.repo.usuarios)
      ensures PortaoAdmin(logado, PARA_LOGIN, ACESSO_NEGADO).None? && Cancelado(salvar) ==>
        r == Redirecionar(PaginaOpcoes(id)) && usuarioService.repo.usuarios == old(usuarioService.repo.usuarios)
      ensures PortaoAdmin(logado, PARA_LOGIN, ACESSO_NEGADO).None? && !Cancelado(salvar) ==>
        var u := old(usuarioService.repo.FindBySequencialId(Some(id)));
        && (u.None? ==>
              r == Redirecionar(PaginaOpcoes(id) + "?sucesso=" + UsuarioServico.USUARIO_NAO_ENCONTRADO)
              && usuarioService.repo.usuarios == old(usuarioService.repo.usuarios))
        && (u.Some? ==>
              && usuarioService.repo.usuarios == Salvar(old(usuarioService.repo.usuarios),
                                                        UsuarioServico.StatusAlternado(u.value), IdUsuario)
              && r == Redirecionar(PaginaOpcoes(id) + "?sucesso=" +
                                   (if u.value.status then UsuarioServico.USUARIO_DESATIVADO
                                    else UsuarioServico.USUARIO_ATIVADO)))
    {
      var portao := PortaoAdmin(logado, PARA_LOGIN, ACESSO_NEGADO);
      if portao.Some? {
        return portao.value;
      }
      if Cancelado(salvar) {
        return Redirecionar(PaginaOpcoes(id));
      }
      var resultado := usuarioService.AlterarStatus(Some(id));
      return Redirecionar(PaginaOpcoes(id) + "?sucesso=" + resultado);
    }

    /** `listarPedidos`: every order, the newest first, for any logged-in staff user. */
    function ListarPedidos(logado: Option<Usuario>): (r: (Resposta, seq<Pedido>))
      reads pedidoService.pedidoRepo
      ensures logado.None? ==> r == (Redirecionar(PARA_BACKOFFICE_LOGIN), [])
      ensures logado.Some? ==>
        && r.0 == Exibir(VISTA_PEDIDOS, None)
        && multiset(r.1) == multiset(pedidoService.pedidoRepo.pedidos)
        && DoMaisRecente(r.1)
    {
      match PortaoPedidos(logado)
      case Some(negado) => (negado, [])
      case None => (Exibir(VISTA_PEDIDOS, None), pedidoService.pedidoRepo.FindAllByOrderByDataCriacaoDesc())
    }

    /** `editarPedido`: the order's edit page for any logged-in staff user. */
    function EditarPedido(logado: Option<Usuario>, id: string): (r: Resposta)
      reads pedidoService.pedidoRepo
      ensures logado.None? ==> r == Redirecionar(PARA_BACKOFFICE_LOGIN)
      ensures logado.Some? ==>
        (r == Exibir(VISTA_EDITAR_PEDIDO, None) <==> pedidoService.pedidoRepo.FindById(id).Some?)
      ensures logado.Some? && pedidoService.pedidoRepo.FindById(id).None? ==> r == Redirecionar(PARA_PEDIDO_NAO_ENCONTRADO)
    {
      match PortaoPedidos(logado)
      case Some(negado) => negado
      case None =>
        if pedidoService.pedidoRepo.FindById(id).None? then Redirecionar(PARA_PEDIDO_NAO_ENCONTRADO)
        else Exibir(VISTA_EDITAR_PEDIDO, None)
    }

    /**
     * `processarEdicaoPedido`: any logged-in staff user may set an order's
     * status; a refused change redraws the page when the order exists and
     * otherwise redirects with the service's message.
     */
    method ProcessarEdicaoPedido(logado: Option<Usuario>, id: string, status: string, agora: Instante)
      returns (r: Resposta)
      modifies pedidoService.pedidoRepo
      ensures logado.None? ==>
        r == Redirecionar(PARA_BACKOFFICE_LOGIN) && pedidoService.pedidoRepo.pedidos == old(pedidoService.pedidoRepo.pedidos)
      ensures logado.Some? && old(pedidoService.pedidoRepo.FindById(id)).None? ==>
        r == Redirecionar("/pedidos?erro=" + PedidoServico.PEDIDO_NAO_ENCONTRADO)
        && pedidoService.pedidoRepo.pedidos == old(pedidoService.pedidoRepo.pedidos)
      ensures logado.Some? && old(pedidoService.pedidoRepo.FindById(id)).Some? && !PedidoServico.StatusValido(Some(status)) ==>
        r == Exibir(VISTA_EDITAR_PEDIDO, Some(PedidoServico.STATUS_INVALIDO))
        && pedidoService.pedidoRepo.pedidos == old(pedidoService.pedidoRepo.pedidos)
      ensures logado.Some? && old(pedidoService.pedidoRepo.FindById(id)).Some? && PedidoServico.StatusValido(Some(status)) ==>
        r == Redirecionar("/pedidos?sucesso=" + PedidoServico.STATUS_ATUALIZADO)
        && pedidoService.pedidoRepo.pedidos == Salvar(old(pedidoService.pedidoRepo.pedidos),
             SetStatus(old(pedidoService.pedidoRepo.FindById(id)).value, Some(status), agora), IdPedido)
    {
      if logado.None? {
        return Redirecionar(PARA_BACKOFFICE_LOGIN);
      }
      var resultado := pedidoService.AtualizarStatusPedido(id, Some(status), agora);
      if resultado == PedidoServico.STATUS_ATUALIZADO {
        return Redirecionar("/pedidos?sucesso=" + resultado);
      }
      if pedidoService.pedidoRepo.FindById(id).Some? {
        return Exibir(VISTA_EDITAR_PEDIDO, Some(resultado));
      }
      return Redirecionar("/pedidos?erro=" + resultado);
    }
  }
}
