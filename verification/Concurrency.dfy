/** The machine of interleaved requests: who may do what next, and the history that the invariants
    talk about. */
module Concurrency {
  import opened Identity
  import opened Database
  import opened AccountRules
  import opened OAuthRules
  import opened Interleaving

  /** What a family of tokens was granted. */
  datatype Terms = Terms(clientId: string, userId: string, scopes: seq<string>, codeId: string)

  /** The one place where the right to a refresh token of a family is: a stored row, or a request
      that is about to store one. */
  datatype Holder = Stored(id: string) | Pending(pid: nat)

  /** What the request that consumed a code had presented. */
  datatype Presentation = Presentation(client: Client, redirectUri: string, verifier: string, now: Time)

  /** What happened so far. The server does not keep this. */
  datatype History = History(
    issued: map<string, AuthorizationCode>,    // code id -> the code as it was issued
    consumedBy: map<string, nat>,              // code id -> the request that consumed it
    presented: map<string, Presentation>,      // code id -> what that request presented
    codeFamily: map<string, string>,           // code id -> family
    family: map<string, string>,               // token id -> family, the id of the first access token
    terms: map<string, Terms>,                 // family -> its terms
    first: map<string, RefreshToken>,          // family -> the refresh token as first issued
    holder: map<string, Holder>,               // family -> who has the right to a refresh token
    settled: map<string, string>,              // family -> the access token that the right is linked to
    owner: map<string, nat>)                   // access token id -> the refreshing request that minted it

  const NO_HISTORY := History(map[], map[], map[], map[], map[], map[], map[], map[], map[], map[])

  datatype Machine = Machine(db: Db, used: set<string>, procs: map<nat, Proc>, h: History)

  // ---------- Recording ----------

  /** The first access token of a family is minted. */
  function GrantRecorded(h: History, pid: nat, p: Proc, next: Proc, id: string): History
    requires p.MintingAccess?
  {
    h.(family := h.family[id := id], settled := h.settled[id := id],
       terms := h.terms[id := Terms(p.client.id, p.userId, p.scopes, p.codeId)],
       codeFamily := if p.codeId == "" then h.codeFamily else h.codeFamily[p.codeId := id],
       holder := if next.MintingRefresh? then h.holder[id := Pending(pid)] else h.holder)
  }

  function Recorded(h: History, pid: nat, p: Proc, next: Proc, at: Time, id: string, value: string): History {
    match p
    case Consuming(client, code, redirectUri, verifier, now) =>
      if !next.FindingOwner? then h
      else h.(consumedBy := h.consumedBy[code.id := pid],
              presented := h.presented[code.id := Presentation(client, redirectUri, verifier, now)])
    case MintingAccess(_, _, _, _, _) => if next == Done(false) then h else GrantRecorded(h, pid, p, next, id)
    case MintingRefresh(client, access) =>
      if next == Done(false) then h
      else h.(family := h.family[id := access.id],
              first := h.first[access.id := NewRefresh(client, access, id, value, at)],
              holder := h.holder[access.id := Stored(id)])
    case Replacing(_, rt, _, _) =>
      if next == Done(false) || rt.id !in h.family then h
      else h.(family := h.family[id := h.family[rt.id]], owner := h.owner[id := pid])
    case RotatingOut(rt, accessId, _) =>
      if !next.RotatingIn? || rt.id !in h.family then h
      else h.(holder := h.holder[h.family[rt.id] := Pending(pid)], settled := h.settled[h.family[rt.id] := accessId])
    case RotatingIn(rt, _, _) =>
      if next == Done(false) || rt.id !in h.family then h
      else h.(family := h.family[id := h.family[rt.id]], holder := h.holder[h.family[rt.id] := Stored(id)])
    case _ => h
  }

  // ---------- Steps ----------

  datatype Event =
    | Begin(pid: nat, proc: Proc)                                                   // a request arrives
    | Run(pid: nat, at: Time, id: string, value: string)                            // its next store call
    | IssueCode(req: AuthorizeRequest, userId: string, id: string, value: string, at: Time)
    | Remove(left: Db)                                                              // any deletion of tokens and codes
    | Manage(clients: map<string, Client>, users: map<string, User>)                // any change of clients and users

  predicate FreshValues(used: set<string>, id: string, value: string) {
    id != "" && value != "" && id != value && id !in used && value !in used
  }

  /** A request starts with the client that authenticated; the grants without a code come here with
      the user and the scopes that they decided on. */
  predicate Starts(p: Proc) {
    p.Looking? || p.LookingUp? || (p.MintingAccess? && p.codeId == "")
  }

  ghost predicate Possible(m: Machine, e: Event) {
    match e
    case Begin(pid, proc) => pid !in m.procs && Starts(proc)
    case Run(pid, _, id, value) => pid in m.procs && FreshValues(m.used, id, value)
    case IssueCode(_, _, id, value, _) => FreshValues(m.used, id, value)
    case Remove(left) => TokensShrink(m.db, left) && left.clients == m.db.clients && left.users == m.db.users
    case Manage(_, _) => true
  }

  ghost function RunStep(env: Env, m: Machine, pid: nat, at: Time, id: string, value: string): Machine
    requires pid in m.procs
  {
    var moved := Move(env, m.db, m.procs[pid], at, id, value);
    Machine(moved.db, m.used + {id, value}, m.procs[pid := moved.proc],
            Recorded(m.h, pid, m.procs[pid], moved.proc, at, id, value))
  }

  ghost function StepTo(env: Env, m: Machine, e: Event): Machine
    requires Possible(m, e)
  {
    match e
    case Begin(pid, proc) => m.(procs := m.procs[pid := proc])
    case Run(pid, at, id, value) => RunStep(env, m, pid, at, id, value)
    case IssueCode(req, userId, id, value, at) =>
      var code := NewCode(req, userId, id, value, at);
      var w := CreateCode(m.db, code);
      Machine(w.db, m.used + {id, value}, m.procs,
              if w.error.Some? then m.h else m.h.(issued := m.h.issued[id := code]))
    case Remove(left) => m.(db := left)
    case Manage(clients, users) => m.(db := m.db.(clients := clients, users := users))
  }

  ghost predicate Starting(m: Machine) {
    && m.db == EMPTY.(clients := m.db.clients, users := m.db.users) && m.procs == map[] && m.h == NO_HISTORY
    && "" !in m.used
  }

  ghost predicate Trace(env: Env, ms: seq<Machine>, es: seq<Event>) {
    && |ms| == |es| + 1 && Starting(ms[0])
    && forall i :: 0 <= i < |es| ==> Possible(ms[i], es[i]) && ms[i + 1] == StepTo(env, ms[i], es[i])
  }
}
