/** Backoffice staff accounts and their group (role). */
module Usuarios {
  import opened Wrappers

  /** The two roles. */
  datatype Grupo = ADMINISTRADOR | ESTOQUISTA

  /** `Grupo.name()`. */
  function NomeGrupo(g: Grupo): string {
    match g
    case ADMINISTRADOR => "ADMINISTRADOR"
    case ESTOQUISTA => "ESTOQUISTA"
  }

  /** `Grupo.valueOf`: the constant with exactly that name; `None` where Java throws `IllegalArgumentException`. */
  function GrupoValueOf(s: string): (r: Option<Grupo>)
    ensures forall g :: r == Some(g) <==> NomeGrupo(g) == s
  {
    if s == "ADMINISTRADOR" then Some(ADMINISTRADOR)
    else if s == "ESTOQUISTA" then Some(ESTOQUISTA)
    else None
  }

  /**
   * A staff user. The group is stored as its name (a string), so a stored
   * value may be null or a name that is no constant.
   */
  datatype Usuario = Usuario(
    id: string,
    sequencialId: Option<int>,
    nome: Option<string>,
    cpf: Option<string>,
    email: Option<string>,
    senha: Option<string>,
    status: bool,
    grupo: Option<string>)

  /** The name stored for an optional group. */
  function NomeOpcional(g: Option<Grupo>): (r: Option<string>)
    ensures r.None? <==> g.None?
    ensures g.Some? ==> r == Some(NomeGrupo(g.value))
  {
    match g
    case Some(v) => Some(NomeGrupo(v))
    case None => None
  }

  /** The five-argument constructor: active, group stored by name, no sequential id yet. */
  function Novo(novoId: string, nome: string, cpf: string, email: string, senha: string, grupo: Option<Grupo>): (u: Usuario)
    ensures u.status && u.sequencialId.None? && u.id == novoId
    ensures u.grupo == NomeOpcional(grupo)
    ensures u.nome == Some(nome) && u.cpf == Some(cpf) && u.email == Some(email) && u.senha == Some(senha)
  {
    Usuario(novoId, None, Some(nome), Some(cpf), Some(email), Some(senha), true, NomeOpcional(grupo))
  }

  /** `getGrupo`: null for a null or unknown stored name. */
  function GetGrupo(u: Usuario): (r: Option<Grupo>)
    ensures r.Some? <==> u.grupo.Some? && GrupoValueOf(u.grupo.value).Some?
    ensures r.Some? ==> u.grupo == Some(NomeGrupo(r.value))
  {
    match u.grupo
    case None => None
    case Some(s) => GrupoValueOf(s)
  }

  /** `setGrupo`: stores the name, or null. */
  function SetGrupo(u: Usuario, g: Option<Grupo>): (r: Usuario)
    ensures r.grupo == NomeOpcional(g) && r.(grupo := u.grupo) == u
  {
    u.(grupo := NomeOpcional(g))
  }

  /** `setGrupoString`: stores the raw string, unchecked. */
  function SetGrupoString(u: Usuario, s: Option<string>): (r: Usuario)
    ensures r.grupo == s && r.(grupo := u.grupo) == u
  {
    u.(grupo := s)
  }

  /** `getStatusTexto`. */
  function StatusTexto(u: Usuario): (r: string)
    ensures r == "Ativo" <==> u.status
    ensures r == "Inativo" <==> !u.status
  {
    if u.status then "Ativo" else "Inativo"
  }

  /** Storing a group and reading it back gives the same group, null included. */
  lemma GrupoIdaEVolta(u: Usuario, g: Option<Grupo>)
    ensures GetGrupo(SetGrupo(u, g)) == g
  {
    if g.Some? {
      match g.value
      case ADMINISTRADOR =>
      case ESTOQUISTA =>
    }
  }

  /** Reading the group is the inverse of storing it: a readable stored name is written back unchanged. */
  lemma GrupoVoltaEIda(u: Usuario)
    requires GetGrupo(u).Some?
    ensures SetGrupo(u, GetGrupo(u)) == u
  {
  }

  /** A raw string that names no constant reads back as null. */
  lemma GrupoDesconhecido(u: Usuario, s: Option<string>)
    requires s.Some? ==> s.value != "ADMINISTRADOR" && s.value != "ESTOQUISTA"
    ensures GetGrupo(SetGrupoString(u, s)).None?
  {
  }
}
