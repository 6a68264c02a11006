/** Moving every USER account to LAWYER, and undoing it. */
module RoleBackfill {
  import opened Options
  import opened Sequences

  datatype Role = ADMIN | USER | LAWYER
  type Roles = map<string, Role>

  /** What is saved before anything changes. */
  datatype Backup = Backup(dbHost: string, ids: seq<string>)

  datatype Applied = NotConfirmed | RolledBack(backup: Backup) | Updated(backup: Backup)
  datatype Reverted = Refused | Restored(count: nat)

  // ── The two updates, on values ──────────────────────────────────────────────────────────────

  /** The rows an update of `ids` with role `from` matches. */
  function Matched(roles: Roles, ids: seq<string>, from: Role): set<string> {
    set id | id in roles && id in ids && roles[id] == from
  }

  /** The table after those rows are given the role `to`. */
  function Moved(roles: Roles, ids: seq<string>, from: Role, to: Role): Roles {
    map id | id in roles :: if id in ids && roles[id] == from then to else roles[id]
  }

  ghost predicate AllStill(roles: Roles, ids: seq<string>, role: Role) {
    forall id :: id in ids ==> id in roles && roles[id] == role
  }

  /** The update matches as many rows as there are ids exactly when every id still has the role. */
  lemma CountsAllExactly(roles: Roles, ids: seq<string>, from: Role)
    requires Distinct(ids)
    ensures |Matched(roles, ids, from)| == |ids| <==> AllStill(roles, ids, from)
  {
    DistinctSize(ids);
    var matched := Matched(roles, ids, from);
    assert matched <= Elements(ids);
    if AllStill(roles, ids, from) {
      assert matched == Elements(ids);
    }
    if |matched| == |ids| {
      SameSizeSubset(matched, Elements(ids));
      forall id | id in ids
        ensures id in roles && roles[id] == from
      {
        assert id in Elements(ids);
      }
    }
  }

  lemma SameSizeSubset(a: set<string>, b: set<string>)
    requires a <= b && |a| == |b|
    ensures a == b
  {
    assert |b - a| == |b| - |a|;
  }

  /** Only the listed rows with the one role change, to the other; nobody else's role does, so an ADMIN
    * never changes, and no row comes or goes. */
  lemma OnlyThoseChange(roles: Roles, ids: seq<string>, from: Role, to: Role, id: string)
    requires from != to && id in roles
    ensures Moved(roles, ids, from, to).Keys == roles.Keys
    ensures Moved(roles, ids, from, to)[id] != roles[id] <==> id in ids && roles[id] == from
    ensures Moved(roles, ids, from, to)[id] == roles[id] || Moved(roles, ids, from, to)[id] == to
    ensures from != ADMIN && to != ADMIN ==> (Moved(roles, ids, from, to)[id] == ADMIN <==> roles[id] == ADMIN)
  {
  }

  // ── Apply, then revert ──────────────────────────────────────────────────────────────────────

  function Users(roles: Roles): set<string> {
    set id | id in roles && roles[id] == USER
  }

  /** What is left to do after an apply: the accounts that became USER since the listing. With none, a
    * second apply finds nothing. */
  lemma NothingLeft(listed: Roles, now: Roles, ids: seq<string>)
    requires Elements(ids) == Users(listed) && AllStill(now, ids, USER)
    ensures Users(Moved(now, ids, USER, LAWYER)) == Users(now) - Users(listed)
    ensures now == listed ==> Users(Moved(now, ids, USER, LAWYER)) == {}
  {
    assert forall id :: id in ids <==> id in Elements(ids);
  }

  /** Undoing after others have changed the table to `since` gives back the table the apply found exactly
    * when they left every other row alone and no saved row is anything but LAWYER or USER again. */
  lemma RevertRestoresExactly(found: Roles, ids: seq<string>, since: Roles)
    requires AllStill(found, ids, USER)
    ensures Moved(since, ids, LAWYER, USER) == found <==>
      && since.Keys == found.Keys
      && (forall id :: id in found && id !in ids ==> since[id] == found[id])
      && (forall id :: id in ids ==> since[id] == LAWYER || since[id] == USER)
  {
    var back := Moved(since, ids, LAWYER, USER);
    assert back.Keys == since.Keys;
    if back == found {
      forall id | id in found
        ensures id !in ids ==> since[id] == found[id]
        ensures id in ids ==> since[id] == LAWYER || since[id] == USER
      {
        assert back[id] == found[id];
      }
    }
  }

  /** With nothing in between, apply then revert restores every role. */
  lemma RevertUndoesApply(found: Roles, ids: seq<string>)
    requires AllStill(found, ids, USER)
    ensures Moved(Moved(found, ids, USER, LAWYER), ids, LAWYER, USER) == found
  {
    RevertRestoresExactly(found, ids, Moved(found, ids, USER, LAWYER));
  }

  // ── The script ──────────────────────────────────────────────────────────────────────────────

  class Database {
    const host: string
    var roles: Roles

    constructor (host: string, roles: Roles)
      ensures this.host == host && this.roles == roles
    {
      this.host := host;
      this.roles := roles;
    }

    /** The USER accounts, each once. */
    method Targets() returns (ids: seq<string>)
      ensures Distinct(ids) && Elements(ids) == Users(roles)
    {
      ids := [];
      var rest := Users(roles);
      while rest != {}
        invariant Distinct(ids) && rest <= Users(roles) && Elements(ids) == Users(roles) - rest
        decreases |rest|
      {
        var id :| id in rest;
        assert id !in Elements(ids);
        ids := ids + [id];
        rest := rest - {id};
        assert Elements(ids) == Elements(ids[..|ids| - 1]) + {id};
      }
    }

    /** `updateMany`: gives the matching rows the role and counts them. */
    method UpdateMany(ids: seq<string>, from: Role, to: Role) returns (count: nat)
      modifies this`roles
      ensures roles == Moved(old(roles), ids, from, to) && count == |Matched(old(roles), ids, from)|
    {
      count := |Matched(roles, ids, from)|;
      roles := Moved(roles, ids, from, to);
    }

    /**
     * Moves the listed accounts, all or none: whatever has happened to the table since they were listed,
     * they change exactly when every one is still USER.
     */
    method Apply(ids: seq<string>, confirm: Option<string>) returns (r: Applied)
      requires Distinct(ids)
      modifies this`roles
      ensures r.NotConfirmed? <==> confirm != Some(host)
      ensures !r.NotConfirmed? ==> r.backup == Backup(host, ids)
      ensures r.Updated? <==> confirm == Some(host) && old(AllStill(roles, ids, USER))
      ensures roles == if r.Updated? then Moved(old(roles), ids, USER, LAWYER) else old(roles)
    {
      if confirm != Some(host) {
        return NotConfirmed;
      }
      var backup := Backup(host, ids);
      var before := roles;
      CountsAllExactly(roles, ids, USER);
      var count := UpdateMany(ids, USER, LAWYER);
      if count != |ids| {
        roles := before;
        return RolledBack(backup);
      }
      r := Updated(backup);
    }

    /** Sets the saved accounts that are still LAWYER back to USER, and touches no other row. */
    method Revert(backup: Backup, confirm: Option<string>) returns (r: Reverted)
      modifies this`roles
      ensures r.Refused? <==> confirm != Some(host) || backup.dbHost != host
      ensures roles == if r.Refused? then old(roles) else Moved(old(roles), backup.ids, LAWYER, USER)
      ensures r.Restored? ==> r.count == |Matched(old(roles), backup.ids, LAWYER)|
    {
      if confirm != Some(host) || backup.dbHost != host {
        return Refused;
      }
      var count := UpdateMany(backup.ids, LAWYER, USER);
      r := Restored(count);
    }
  }

  /** A confirmed run and its undo, one after the other, leave the table as it was. */
  method ApplyThenRevert(db: Database)
    modifies db`roles
    ensures db.roles == old(db.roles)
  {
    var ids := db.Targets();
    if ids == [] {
      return;
    }
    assert forall id :: id in ids <==> id in Elements(ids);
    var applied := db.Apply(ids, Some(db.host));
    RevertUndoesApply(old(db.roles), ids);
    var _ := db.Revert(applied.backup, Some(db.host));
  }
}
