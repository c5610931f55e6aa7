/** The OAuth client file (internal/gateway/oauth_clients.go): what a reader finds after any crash or
    failure during its replacement. A file's content is what its bytes decode to; encoding is taken to be
    inverted by decoding. Each rename, remove and write is one step that happens or fails as a whole. */
module OAuthClientFile {
  import opened Common

  datatype Client = Client(id: string, name: string, redirectUris: seq<string>)
  datatype ClientsState = ClientsState(version: int, issuer: string, clients: map<string, Client>)

  datatype Content = Encoded(state: ClientsState) | Garbage

  /** The two files a reader looks at. */
  datatype Disk = Disk(primary: Option<Content>, backup: Option<Content>)

  datatype ReadResult = NoFile | Loaded(state: ClientsState) | Unreadable

  /** readOAuthClientsState: the first candidate that exists and decodes; an error if one existed but none decoded. */
  function Read(d: Disk): ReadResult {
    match (d.primary, d.backup)
    case (Some(Encoded(s)), _) => Loaded(s)
    case (_, Some(Encoded(s))) => Loaded(s)
    case (None, None) => NoFile
    case _ => Unreadable
  }

  /** Which operations fail during one replacement. */
  datatype Faults = Faults(
    prepare: bool,          // making the directory, creating, writing, syncing or closing the temp file
    stat: bool,             // a stat error other than "does not exist"
    removeOld: bool,
    moveAside: bool,
    install: bool,
    restore: bool,
    removeBackup: bool)

  /** writeOAuthClientsAtomic as the disk states it passes through, in order, and its verdict. */
  function Replace(d: Disk, s: ClientsState, f: Faults): (seq<Disk>, bool) {
    if f.prepare || f.stat then ([d], false)
    else if d.primary.Some? then
      var d1 := if f.removeOld then d else d.(backup := None);
      if f.moveAside then ([d, d1], false)
      else
        var d2 := Disk(None, d1.primary);
        if f.install then
          var d3 := if f.restore then d2 else Disk(d2.backup, None);
          ([d, d1, d2, d3], false)
        else
          var d3 := d2.(primary := Some(Encoded(s)));
          ([d, d1, d2, d3, if f.removeBackup then d3 else d3.(backup := None)], true)
    else if f.install then ([d], false)
    else
      var d1 := d.(primary := Some(Encoded(s)));
      ([d, d1, if f.removeBackup then d1 else d1.(backup := None)], true)
  }

  /** A crash at any point leaves the old registry or the new one, an error return the old one, success the new one. */
  ghost predicate CrashConsistent(d: Disk, s: ClientsState, f: Faults) {
    var (states, ok) := Replace(d, s, f);
    && (forall i :: 0 <= i < |states| ==> Read(states[i]) == Read(d) || Read(states[i]) == Loaded(s))
    && Read(states[|states| - 1]) == if ok then Loaded(s) else Read(d)
  }

  /** The file the reader falls back to is the one that replacement deletes first. */
  predicate LivesInBackup(d: Disk) {
    d.primary == Some(Garbage) && d.backup.Some? && d.backup.value.Encoded?
  }

  /** Replacement is crash-consistent under every schedule of failures exactly when the registry does not
      live in the backup behind an undecodable primary. */
  lemma CrashConsistency(d: Disk, s: ClientsState)
    ensures (forall f :: CrashConsistent(d, s, f)) <==> !LivesInBackup(d)
  {
    if LivesInBackup(d) {
      var f := Faults(false, false, false, true, false, false, false);
      var (states, ok) := Replace(d, s, f);
      assert Read(states[1]) == Unreadable;
      assert !CrashConsistent(d, s, f);
    } else {
      forall f ensures CrashConsistent(d, s, f) {
        Consistent(d, s, f);
      }
    }
  }

  lemma Consistent(d: Disk, s: ClientsState, f: Faults)
    requires !LivesInBackup(d)
    ensures CrashConsistent(d, s, f)
  {
  }

  /** Replacement succeeds exactly when the new file can be prepared and installed and an old one, if there is one,
      moved aside; what becomes of the backup never matters. Then the new file is in place, alone if it can be. */
  lemma ReplaceSucceedsWhen(d: Disk, s: ClientsState, f: Faults)
    ensures var (states, ok) := Replace(d, s, f);
            && (ok <==> !f.prepare && !f.stat && !f.install && (d.primary.Some? ==> !f.moveAside))
            && (ok ==> states[|states| - 1].primary == Some(Encoded(s)))
            && (ok && !f.removeBackup ==> states[|states| - 1].backup == None)
  {
  }

  /** Replacement never leaves an undecodable primary where there was none. */
  lemma StaysWellFormed(d: Disk, s: ClientsState, f: Faults)
    requires d.primary != Some(Garbage)
    ensures forall i :: 0 <= i < |Replace(d, s, f).0| ==> Replace(d, s, f).0[i].primary != Some(Garbage)
  {
  }

  /** The directory the client file lives in. `history` records every state of the two files. */
  class Directory {
    var primary: Option<Content>
    var backup: Option<Content>
    var temp: Option<Content>
    ghost var history: seq<Disk>

    ghost function View(): Disk
      reads this
    {
      Disk(primary, backup)
    }

    constructor (d: Disk)
      ensures View() == d && temp == None && history == []
    {
      primary, backup, temp, history := d.primary, d.backup, None, [];
    }

    /** writeOAuthClientsAtomic, one file operation after another. */
    method WriteAtomic(s: ClientsState, f: Faults) returns (ok: bool)
      modifies this
      ensures var (states, verdict) := Replace(old(View()), s, f);
              history == old(history) + states && View() == states[|states| - 1] && ok == verdict
      ensures temp == None
    {
      ghost var d0 := View();
      if f.prepare {
        history := history + [d0];
        temp := None;
        return false;
      }
      temp := Some(Encoded(s));
      if f.stat {
        history := history + [d0];
        temp := None;
        return false;
      }
      var hadPrimary := primary.Some?;
      ghost var seen := [d0];
      if hadPrimary {
        if !f.removeOld { backup := None; }
        ghost var d1 := View();
        if f.moveAside {
          history := history + [d0, d1];
          temp := None;
          return false;
        }
        backup, primary := primary, None;
        seen := [d0, d1, View()];
      }
      if f.install {
        if hadPrimary {
          if !f.restore { primary, backup := backup, None; }
          seen := seen + [View()];
        }
        history := history + seen;
        temp := None;
        return false;
      }
      primary, temp := temp, None;
      ghost var installed := View();
      if !f.removeBackup { backup := None; }
      history := history + (seen + [installed, View()]);
      return true;
    }

    /** readOAuthClientsState: a loop over the candidates. */
    method ReadState() returns (r: ReadResult)
      ensures r == Read(View())
    {
      var candidates := [primary, backup];
      var failures := 0;
      for i := 0 to |candidates|
        invariant 0 <= failures <= i
        invariant forall k :: 0 <= k < i ==> !(candidates[k].Some? && candidates[k].value.Encoded?)
        invariant failures == 0 <==> forall k :: 0 <= k < i ==> candidates[k].None?
      {
        if candidates[i].Some? {
          match candidates[i].value
          case Encoded(s) =>
            assert i == 1 ==> !(candidates[0].Some? && candidates[0].value.Encoded?);
            return Loaded(s);
          case Garbage => failures := failures + 1;
        }
      }
      assert !(candidates[0].Some? && candidates[0].value.Encoded?)
          && !(candidates[1].Some? && candidates[1].value.Encoded?);
      return if failures != 0 then Unreadable else NoFile;
    }
  }
}
