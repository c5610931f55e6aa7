/** The device registry of internal/device/manager.go: which session a device name is bound to. The engine's
    `devices` map is the view of this object. */
module DeviceRegistry {
  import opened Common

  type SessionId = nat

  datatype Lookup = Found(session: SessionId) | DeviceNotFound | DeviceRequired | NoDevice

  class Registry {
    /** A name stays known after its session has gone. */
    var devices: map<string, Option<SessionId>>

    /** The names that have a session, with it. */
    ghost function Attached(): map<string, SessionId>
      reads this
    {
      map name | name in devices && devices[name].Some? :: devices[name].value
    }

    constructor ()
      ensures Attached() == map[]
    {
      devices := map[];
    }

    /** Binds a name only if it has no session; `valid` says whether the device's description was acceptable. */
    method Attach(name: string, session: SessionId, valid: bool) returns (ok: bool)
      modifies this
      ensures ok <==> valid && name !in old(Attached())
      ensures Attached() == if ok then old(Attached())[name := session] else old(Attached())
    {
      if !valid { return false; }
      if name in devices && devices[name].Some? { return false; }
      devices := devices[name := Some(session)];
      return true;
    }

    /** Only the session that is bound can be unbound: detaching an old session spares its successor. */
    method Detach(name: string, session: SessionId)
      modifies this
      ensures Attached() == if name in old(Attached()) && old(Attached())[name] == session then old(Attached()) - {name}
                            else old(Attached())
    {
      if name in devices && devices[name] == Some(session) {
        devices := devices[name := None];
      }
    }

    /** With a name, its session; without one, the only session there is. */
    method Resolve(name: string) returns (r: Lookup)
      ensures name != "" ==> r == if name in Attached() then Found(Attached()[name]) else DeviceNotFound
      ensures name == "" ==>
                && (r == NoDevice <==> Attached() == map[])
                && (r == DeviceRequired <==> exists a, b :: a in Attached() && b in Attached() && a != b)
                && (r.Found? ==> exists a :: Attached() == map[a := r.session])
                && r != DeviceNotFound
    {
      if name != "" {
        if name !in devices || devices[name].None? { return DeviceNotFound; }
        return Found(devices[name].value);
      }
      var only: Option<string> := None;
      var rest := devices.Keys;
      while rest != {}
        invariant rest <= devices.Keys
        invariant only == None ==> forall d :: d in Attached() ==> d in rest
        invariant only.Some? ==> only.value in Attached() && forall d :: d in Attached() ==>
                  d == only.value || d in rest
        invariant only.Some? ==> only.value !in rest
        decreases rest
      {
        var d :| d in rest;
        rest := rest - {d};
        if devices[d].Some? {
          assert d in Attached();
          if only.Some? {
            assert only.value in Attached() && only.value != d;
            return DeviceRequired;
          }
          only := Some(d);
        }
      }
      if only == None {
        assert Attached() == map[];
        return NoDevice;
      }
      assert Attached() == map[only.value := devices[only.value].value];
      return Found(devices[only.value].value);
    }
  }
}
