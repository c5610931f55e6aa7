/** Dynamic client registration (internal/gateway/oauth.go) over the client file: the registry in memory
    against the registry a restart would load. */
module OAuthRegistry {
  import opened Common
  import opened OAuthClientFile

  const STATE_VERSION := 1
  const MAX_CLIENTS: nat := 1024
  const MAX_REDIRECT_URIS: nat := 10
  const MAX_CLIENT_NAME: nat := 200

  type Clients = map<string, Client>

  /** The gateway's settings; `validUri` stands for validRedirectURI. */
  datatype Config = Config(publicBase: string, validUri: string -> bool)

  // ----- Loading

  predicate ValidClient(c: Config, id: string, client: Client) {
    && id != "" && client.id == id && |client.name| <= MAX_CLIENT_NAME
    && 0 < |client.redirectUris| <= MAX_REDIRECT_URIS
    && forall i :: 0 <= i < |client.redirectUris| ==> c.validUri(client.redirectUris[i])
  }

  /** Everything loadClients checks of a decoded file. */
  predicate Loadable(c: Config, s: ClientsState) {
    && s.version == STATE_VERSION && s.issuer == c.publicBase
    && |s.clients| <= MAX_CLIENTS
    && forall id :: id in s.clients ==> ValidClient(c, id, s.clients[id])
  }

  /** The clients a gateway starting from `d` would have; None when it refuses to start. */
  function Restart(c: Config, d: Disk): Option<Clients> {
    match Read(d)
    case NoFile => Some(map[])
    case Unreadable => None
    case Loaded(s) => if Loadable(c, s) then Some(s.clients) else None
  }

  // ----- Registering

  /** A decoded registration request, the id drawn for it, and the failures its save meets. */
  datatype Request = Request(name: string, redirectUris: seq<string>, id: string, faults: Faults)

  datatype Outcome = InvalidRedirect | InvalidMetadata | RegistryFull | PersistFailed | Registered

  datatype Registry = Registry(clients: Clients, disk: Disk)

  /** The checks made before the registry is locked. */
  function Refusal(c: Config, q: Request): Option<Outcome> {
    if |q.redirectUris| == 0 || |q.redirectUris| > MAX_REDIRECT_URIS then Some(InvalidRedirect)
    else if exists i :: 0 <= i < |q.redirectUris| && !c.validUri(q.redirectUris[i]) then Some(InvalidRedirect)
    else if |q.name| > MAX_CLIENT_NAME then Some(InvalidMetadata)
    else None
  }

  function State(c: Config, clients: Clients): ClientsState {
    ClientsState(STATE_VERSION, c.publicBase, clients)
  }

  function Requested(q: Request): Client {
    Client(q.id, q.name, q.redirectUris)
  }

  function Extended(r: Registry, q: Request): Clients {
    r.clients[q.id := Requested(q)]
  }

  /** HandleRegister's effect on memory and disk. */
  function Register(c: Config, r: Registry, q: Request): (Registry, Outcome) {
    if Refusal(c, q).Some? then (r, Refusal(c, q).value)
    else if |r.clients| >= MAX_CLIENTS then (r, RegistryFull)
    else
      var clients := Extended(r, q);
      var (states, ok) := Replace(r.disk, State(c, clients), q.faults);
      var disk := states[|states| - 1];
      if ok then (Registry(clients, disk), Registered)
      else (Registry(clients - {q.id}, disk), PersistFailed)
  }

  // ----- When loading and registering succeed

  /** Between one and ten redirect URIs, all of them acceptable. */
  predicate UrisOk(c: Config, uris: seq<string>) {
    1 <= |uris| <= 10 && forall uri :: uri in uris ==> c.validUri(uri)
  }

  /** A gateway starts exactly when there is no client file, or the file that is read is of version 1 and for this
      gateway's address, and holds at most 1024 clients, each filed under its own id. */
  lemma LoadsWhen(c: Config, d: Disk)
    ensures Restart(c, d).Some? <==>
            Read(d) == NoFile
            || (Read(d).Loaded?
                && var s := Read(d).state;
                && s.version == 1 && s.issuer == c.publicBase && |s.clients| <= 1024
                && forall id :: id in s.clients ==>
                     && id != "" && s.clients[id].id == id && |s.clients[id].name| <= 200
                     && UrisOk(c, s.clients[id].redirectUris))
    ensures Restart(c, d).Some? && Read(d).Loaded? ==> Restart(c, d).value == Read(d).state.clients
  {
    if Read(d).Loaded? {
      var s := Read(d).state;
      forall id | id in s.clients
        ensures UrisOk(c, s.clients[id].redirectUris) <==>
                && 0 < |s.clients[id].redirectUris| <= MAX_REDIRECT_URIS
                && forall i :: 0 <= i < |s.clients[id].redirectUris| ==> c.validUri(s.clients[id].redirectUris[i])
      {
        UrisOneByOne(c, s.clients[id].redirectUris);
      }
    }
  }

  lemma UrisOneByOne(c: Config, uris: seq<string>)
    ensures UrisOk(c, uris) <==>
            0 < |uris| <= MAX_REDIRECT_URIS && forall i :: 0 <= i < |uris| ==> c.validUri(uris[i])
  {
    if forall i :: 0 <= i < |uris| ==> c.validUri(uris[i]) {
      forall uri | uri in uris ensures c.validUri(uri) {
        var i :| 0 <= i < |uris| && uris[i] == uri;
      }
    }
  }

  /** What a registration is answered, check by check and fault by fault. */
  lemma RegistersWhen(c: Config, r: Registry, q: Request)
    ensures Register(c, r, q).1 ==
            if !UrisOk(c, q.redirectUris) then InvalidRedirect
            else if |q.name| > 200 then InvalidMetadata
            else if |r.clients| >= 1024 then RegistryFull
            else if q.faults.prepare || q.faults.stat || q.faults.install
                    || (r.disk.primary.Some? && q.faults.moveAside)
            then PersistFailed
            else Registered
    ensures Register(c, r, q).1 == Registered ==>
            && Register(c, r, q).0.clients == r.clients[q.id := Client(q.id, q.name, q.redirectUris)]
            && Read(Register(c, r, q).0.disk) == Loaded(ClientsState(1, c.publicBase, Register(c, r, q).0.clients))
    ensures Register(c, r, q).1 in {InvalidRedirect, InvalidMetadata, RegistryFull} ==> Register(c, r, q).0 == r
  {
    UrisOneByOne(c, q.redirectUris);
    ReplaceSucceedsWhen(r.disk, State(c, Extended(r, q)), q.faults);
  }

  /** Memory is what a restart would load, and the primary file is absent or decodes. */
  predicate InStep(c: Config, r: Registry) {
    Restart(c, r.disk) == Some(r.clients) && r.disk.primary != Some(Garbage)
  }

  lemma RestartLoadable(c: Config, d: Disk)
    requires Restart(c, d).Some?
    ensures Loadable(c, State(c, Restart(c, d).value))
  {
  }

  /** The request gets as far as the client file. */
  predicate Admitted(c: Config, r: Registry, q: Request) {
    Refusal(c, q) == None && |r.clients| < MAX_CLIENTS
  }

  /** One registration, successful or not, keeps memory and disk in step, and changes memory only by adding
      the new client on success. */
  lemma RegisterInStep(c: Config, r: Registry, q: Request)
    requires InStep(c, r) && q.id != "" && q.id !in r.clients
    ensures InStep(c, Register(c, r, q).0)
    ensures Register(c, r, q).0.clients == if Register(c, r, q).1 == Registered then Extended(r, q) else r.clients
  {
    if Admitted(c, r, q) {
      var s := State(c, Extended(r, q));
      NewStateLoadable(c, r, q);
      Consistent(r.disk, s, q.faults);
      StaysWellFormed(r.disk, s, q.faults);
      assert Extended(r, q) - {q.id} == r.clients;
    }
  }

  /** A crash at any moment of a registration restarts with the old clients or the new ones. */
  lemma RegisterSurvivesCrash(c: Config, r: Registry, q: Request, d: Disk)
    requires InStep(c, r) && q.id != "" && Admitted(c, r, q)
    requires d in Replace(r.disk, State(c, Extended(r, q)), q.faults).0
    ensures Restart(c, d) == Some(r.clients) || Restart(c, d) == Some(Extended(r, q))
  {
    var s := State(c, Extended(r, q));
    NewStateLoadable(c, r, q);
    Consistent(r.disk, s, q.faults);
    var states := Replace(r.disk, s, q.faults).0;
    var i :| 0 <= i < |states| && states[i] == d;
    SameReading(c, d, r.disk, s);
  }

  lemma SameReading(c: Config, d: Disk, before: Disk, s: ClientsState)
    requires Read(d) == Read(before) || Read(d) == Loaded(s)
    requires Loadable(c, s)
    ensures Restart(c, d) == Restart(c, before) || Restart(c, d) == Some(s.clients)
  {
  }

  /** What is written is what loading accepts. */
  lemma NewStateLoadable(c: Config, r: Registry, q: Request)
    requires InStep(c, r) && Admitted(c, r, q) && q.id != ""
    ensures Loadable(c, State(c, Extended(r, q)))
  {
  }

  /** Any registration, whatever fails, leaves a gateway that would restart with the clients in memory. */
  ghost predicate SurvivesRegistration(c: Config, r: Registry) {
    forall q: Request :: q.id != "" && q.id !in r.clients ==>
      Restart(c, Register(c, r, q).0.disk) == Some(Register(c, r, q).0.clients)
  }

  /** For a gateway that has just started and can still take a client, that is so exactly when its registry does
      not live in the backup behind an undecodable primary. */
  lemma SurvivalCondition(c: Config, r: Registry, uri: string)
    requires Restart(c, r.disk) == Some(r.clients) && |r.clients| < MAX_CLIENTS && c.validUri(uri)
    ensures SurvivesRegistration(c, r) <==> !LivesInBackup(r.disk)
  {
    if LivesInBackup(r.disk) {
      var id := NewId(r.clients.Keys);
      var q := Request("", [uri], id, Faults(false, false, false, true, false, false, false));
      assert Refusal(c, q) == None;
      assert Read(Register(c, r, q).0.disk) == Unreadable;
      assert !SurvivesRegistration(c, r);
    } else {
      assert InStep(c, r);
      forall q: Request | q.id != "" && q.id !in r.clients
        ensures Restart(c, Register(c, r, q).0.disk) == Some(Register(c, r, q).0.clients)
      {
        RegisterInStep(c, r, q);
      }
    }
  }

  /** Some identifier is always left over. */
  lemma NewId(used: set<string>) returns (id: string)
    ensures id != "" && id !in used
  {
    var n := LongerThan(used);
    id := seq(n + 1, k => 'a');
  }

  lemma LongerThan(used: set<string>) returns (n: nat)
    ensures forall s :: s in used ==> |s| <= n
  {
    if used == {} {
      n := 0;
    } else {
      var s :| s in used;
      var m := LongerThan(used - {s});
      n := Max(m, |s|);
      forall x | x in used ensures |x| <= n {
        if x != s { assert x in used - {s}; }
      }
    }
  }

  /** Rolling back by deleting the id restores the old map exactly when the id was new. */
  lemma RollbackNeedsNewId(c: Config, r: Registry, q: Request)
    requires Register(c, r, q).1 == PersistFailed
    ensures Register(c, r, q).0.clients == r.clients <==> q.id !in r.clients
  {
  }

  // ----- Runs

  function RegisterAll(c: Config, r: Registry, requests: seq<Request>): Registry {
    if requests == [] then r
    else Register(c, RegisterAll(c, r, requests[..|requests| - 1]), requests[|requests| - 1]).0
  }

  /** Drawn ids are not empty and never repeat. */
  ghost predicate FreshIds(r: Registry, requests: seq<Request>) {
    && (forall i :: 0 <= i < |requests| ==> requests[i].id != "" && requests[i].id !in r.clients)
    && (forall i, j :: 0 <= i < j < |requests| ==> requests[i].id != requests[j].id)
  }

  /** Request `i` is answered with success. */
  ghost predicate Succeeds(c: Config, r: Registry, requests: seq<Request>, i: nat)
    requires i < |requests|
  {
    Register(c, RegisterAll(c, r, requests[..i]), requests[i]).1 == Registered
  }

  /** The clients are the earlier ones, unchanged, and those of the requests that succeeded, as requested. */
  ghost predicate Exactly(c: Config, r: Registry, requests: seq<Request>, clients: Clients) {
    && (forall id :: id in r.clients ==> id in clients && clients[id] == r.clients[id])
    && (forall i {:trigger Succeeds(c, r, requests, i)} :: 0 <= i < |requests| && Succeeds(c, r, requests, i) ==>
          requests[i].id in clients && clients[requests[i].id] == Requested(requests[i]))
    && (forall id :: id in clients ==> id in r.clients || Answered(c, r, requests, id))
  }

  /** The client comes from a request that succeeded. */
  ghost predicate Answered(c: Config, r: Registry, requests: seq<Request>, id: string) {
    exists i :: 0 <= i < |requests| && Succeeds(c, r, requests, i) && requests[i].id == id
  }

  /** After any registrations, with any failures, the gateway would restart with the clients it has in memory. They
      pass all checks, and they are exactly the earlier ones and those of the requests that succeeded. */
  lemma {:induction false} AlwaysRestartable(c: Config, r: Registry, requests: seq<Request>)
    requires InStep(c, r) && FreshIds(r, requests)
    ensures InStep(c, RegisterAll(c, r, requests)) && Loadable(c, State(c, RegisterAll(c, r, requests).clients))
    ensures Exactly(c, r, requests, RegisterAll(c, r, requests).clients)
  {
    if requests == [] {
      RestartLoadable(c, r.disk);
    } else {
      FrontFresh(r, requests);
      AlwaysRestartable(c, r, requests[..|requests| - 1]);
      LastRegisters(c, r, requests);
    }
  }

  lemma FrontFresh(r: Registry, requests: seq<Request>)
    requires FreshIds(r, requests) && requests != []
    ensures FreshIds(r, requests[..|requests| - 1])
  {
    assert forall i :: 0 <= i < |requests| - 1 ==> requests[..|requests| - 1][i] == requests[i];
  }

  /** The id of the last request is not in use. */
  lemma LastIsNew(c: Config, r: Registry, requests: seq<Request>, before: Clients)
    requires FreshIds(r, requests) && requests != [] && Exactly(c, r, requests[..|requests| - 1], before)
    ensures requests[|requests| - 1].id != "" && requests[|requests| - 1].id !in before
  {
    forall id | id in before ensures id != requests[|requests| - 1].id {
      assert id in r.clients || Answered(c, r, requests[..|requests| - 1], id);
    }
  }

  lemma LastRegisters(c: Config, r: Registry, requests: seq<Request>)
    requires FreshIds(r, requests) && requests != []
    requires InStep(c, RegisterAll(c, r, requests[..|requests| - 1]))
    requires Exactly(c, r, requests[..|requests| - 1], RegisterAll(c, r, requests[..|requests| - 1]).clients)
    ensures InStep(c, RegisterAll(c, r, requests)) && Loadable(c, State(c, RegisterAll(c, r, requests).clients))
    ensures Exactly(c, r, requests, RegisterAll(c, r, requests).clients)
  {
    var n := |requests| - 1;
    var before, after := RegisterAll(c, r, requests[..n]), RegisterAll(c, r, requests);
    LastIsNew(c, r, requests, before.clients);
    assert InStep(c, after) && Grows(c, r, requests, before.clients, after.clients) by {
      RegisterInStep(c, before, requests[n]);
    }
    RestartLoadable(c, after.disk);
    OneMore(c, r, requests, before.clients, after.clients);
  }

  lemma FrontSucceeds(c: Config, r: Registry, requests: seq<Request>)
    requires requests != []
    ensures forall i {:trigger Succeeds(c, r, requests, i)} :: 0 <= i < |requests| - 1 ==>
              (Succeeds(c, r, requests[..|requests| - 1], i) <==> Succeeds(c, r, requests, i))
  {
    forall i | 0 <= i < |requests| - 1 ensures requests[..|requests| - 1][..i] == requests[..i] {}
  }

  /** The last request adds its client if it succeeds, and nothing otherwise. */
  ghost predicate Grows(c: Config, r: Registry, requests: seq<Request>, before: Clients, after: Clients)
    requires requests != []
  {
    var n := |requests| - 1;
    && requests[n].id !in before
    && after == if Succeeds(c, r, requests, n) then before[requests[n].id := Requested(requests[n])] else before
  }

  lemma StillPresent(c: Config, r: Registry, requests: seq<Request>, before: Clients, after: Clients, i: nat)
    requires requests != [] && Grows(c, r, requests, before, after)
    requires Exactly(c, r, requests[..|requests| - 1], before) && i < |requests| && Succeeds(c, r, requests, i)
    ensures requests[i].id in after && after[requests[i].id] == Requested(requests[i])
  {
    FrontSucceeds(c, r, requests);
    if i < |requests| - 1 { assert Succeeds(c, r, requests[..|requests| - 1], i); }
  }

  lemma StillAnswered(c: Config, r: Registry, requests: seq<Request>, before: Clients, after: Clients, id: string)
    requires requests != [] && Grows(c, r, requests, before, after)
    requires Exactly(c, r, requests[..|requests| - 1], before) && id in after && id !in r.clients
    ensures Answered(c, r, requests, id)
  {
    var n := |requests| - 1;
    var front := requests[..n];
    if id in before {
      assert Answered(c, r, front, id);
      var i :| 0 <= i < |front| && Succeeds(c, r, front, i) && front[i].id == id;
      FrontSucceeds(c, r, requests);
      assert Succeeds(c, r, requests, i) && requests[i].id == id;
    } else {
      assert Succeeds(c, r, requests, n) && requests[n].id == id;
    }
  }

  lemma OneMore(c: Config, r: Registry, requests: seq<Request>, before: Clients, after: Clients)
    requires requests != [] && FreshIds(r, requests) && Grows(c, r, requests, before, after)
    requires Exactly(c, r, requests[..|requests| - 1], before)
    ensures Exactly(c, r, requests, after)
  {
    forall i | 0 <= i < |requests| && Succeeds(c, r, requests, i)
      ensures requests[i].id in after && after[requests[i].id] == Requested(requests[i])
    {
      StillPresent(c, r, requests, before, after, i);
    }
    forall id | id in after && id !in r.clients ensures Answered(c, r, requests, id) {
      StillAnswered(c, r, requests, before, after, id);
    }
  }

  // ----- In place

  class Provider {
    const config: Config
    const directory: Directory
    var clients: Clients

    ghost function View(): Registry
      reads this, directory
    {
      Registry(clients, directory.View())
    }

    /** NewPersistentOAuthProvider; `ok` is false when loading refuses the file. */
    constructor (config: Config, directory: Directory)
      ensures this.config == config && this.directory == directory && clients == map[]
    {
      this.config, this.directory, clients := config, directory, map[];
    }

    /** loadClients: the checks, client by client and URI by URI. */
    method LoadClients() returns (ok: bool)
      modifies this
      ensures ok <==> Restart(config, directory.View()).Some?
      ensures clients == if ok && Read(directory.View()) != NoFile then Restart(config, directory.View()).value
              else old(clients)
    {
      var r := directory.ReadState();
      match r
      case NoFile => return true;
      case Unreadable => return false;
      case Loaded(s) =>
        if s.version != STATE_VERSION || s.issuer != config.publicBase || |s.clients| > MAX_CLIENTS { return false; }
        var rest := s.clients.Keys;
        while rest != {}
          invariant rest <= s.clients.Keys
          invariant forall id :: id in s.clients.Keys - rest ==> ValidClient(config, id, s.clients[id])
          decreases rest
        {
          var id :| id in rest;
          rest := rest - {id};
          var client := s.clients[id];
          if id == "" || client.id != id || |client.name| > MAX_CLIENT_NAME { return false; }
          if |client.redirectUris| == 0 || |client.redirectUris| > MAX_REDIRECT_URIS { return false; }
          for i := 0 to |client.redirectUris|
            invariant forall k :: 0 <= k < i ==> config.validUri(client.redirectUris[k])
          {
            if !config.validUri(client.redirectUris[i]) { return false; }
          }
        }
        clients := s.clients;
        return true;
    }

    /** HandleRegister from the decoded request to the response. */
    method HandleRegister(q: Request) returns (outcome: Outcome)
      modifies this, directory
      ensures (View(), outcome) == Register(config, old(View()), q)
    {
      if |q.redirectUris| == 0 || |q.redirectUris| > MAX_REDIRECT_URIS { return InvalidRedirect; }
      for i := 0 to |q.redirectUris|
        invariant forall k :: 0 <= k < i ==> config.validUri(q.redirectUris[k])
      {
        if !config.validUri(q.redirectUris[i]) { return InvalidRedirect; }
      }
      if |q.name| > MAX_CLIENT_NAME { return InvalidMetadata; }
      if |clients| >= MAX_CLIENTS { return RegistryFull; }
      clients := clients[q.id := Client(q.id, q.name, q.redirectUris)];
      var saved := directory.WriteAtomic(ClientsState(STATE_VERSION, config.publicBase, clients), q.faults);
      if !saved {
        clients := clients - {q.id};
        return PersistFailed;
      }
      return Registered;
    }
  }
}
