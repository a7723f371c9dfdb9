/** The vault sync server: records with optimistic versions, a counter for each repository, and
    requests that are handled one at a time. */
module Sync {
  import opened Geometry // for Option

  type Guid = nat

  const NOBODY: Guid := 0

  datatype OtpRecord = OtpRecord(
    id: Guid, blob: string, version: nat, created: int, updated: int, deleted: Option<int>, repo: Guid)

  datatype Database = Database(
    records: seq<OtpRecord>, versions: map<Guid, nat>, owners: map<Guid, Guid>, members: set<(Guid, Guid)>)

  datatype PushChange = PushChange(id: Guid, repo: Guid, blob: string, expected: int, time: int)

  datatype Accepted = Accepted(id: Guid, newVersion: nat)

  datatype Conflict = Conflict(id: Guid, serverVersion: nat)

  datatype Response =
    | Ok(version: nat)
    | Forbidden
    | NotFound
    | Stale(serverVersion: nat)
    | Failed
    | Pushed(accepted: seq<Accepted>, conflicts: seq<Conflict>)
    | Pulled(items: seq<OtpRecord>, serverVersion: nat)

  // ---------- reading ----------

  function HasRepoAccess(db: Database, repo: Guid, user: Guid): bool {
    user != NOBODY && repo in db.owners && (db.owners[repo] == user || (repo, user) in db.members)
  }

  // The row with this id; none if there is no such row.
  function Find(rows: seq<OtpRecord>, id: Guid): (r: Option<nat>)
    ensures r.Some? ==> r.value < |rows| && rows[r.value].id == id
    ensures r.None? ==> forall i :: 0 <= i < |rows| ==> rows[i].id != id
  {
    if rows == [] then None
    else if rows[|rows| - 1].id == id then Some(|rows| - 1)
    else Find(rows[..|rows| - 1], id)
  }

  function GlobalVersion(versions: map<Guid, nat>, repo: Guid): nat {
    if repo in versions then versions[repo] else 0
  }

  function InsertByVersion(sorted: seq<OtpRecord>, r: OtpRecord): seq<OtpRecord> {
    if sorted == [] || sorted[|sorted| - 1].version <= r.version then sorted + [r]
    else InsertByVersion(sorted[..|sorted| - 1], r) + [sorted[|sorted| - 1]]
  }

  // The records of a repository above a version, by version.
  function Newer(rows: seq<OtpRecord>, repo: Guid, since: int): seq<OtpRecord> {
    if rows == [] then []
    else
      var rest, r := Newer(rows[..|rows| - 1], repo, since), rows[|rows| - 1];
      if r.repo == repo && r.version > since then InsertByVersion(rest, r) else rest
  }

  // ---------- writing ----------

  // An accepted write: its new version, the version that the request expected, the repository of the record,
  // and the repository that the request named.
  datatype Write = Write(id: Guid, version: nat, base: Option<int>, repo: Guid, named: Guid)

  function NewRecord(id: Guid, blob: string, repo: Guid, time: int): OtpRecord {
    OtpRecord(id, blob, 1, time, time, None, repo)
  }

  // What a batch has done so far.
  datatype Batch = Batch(
    records: seq<OtpRecord>, accepted: seq<Accepted>, conflicts: seq<Conflict>, repos: set<Guid>, log: seq<Write>)

  function Push1(db: Database, user: Guid, b: Batch, c: PushChange): Batch {
    if !HasRepoAccess(db, c.repo, user) then b
    else
      var at := Find(b.records, c.id);
      if at.None? then
        b.(records := b.records + [NewRecord(c.id, c.blob, c.repo, c.time)],
           accepted := b.accepted + [Accepted(c.id, 1)], repos := b.repos + {c.repo},
           log := b.log + [Write(c.id, 1, None, c.repo, c.repo)])
      else
        var r := b.records[at.value];
        if c.expected == r.version then
          b.(records := b.records[at.value := r.(blob := c.blob, version := r.version + 1, updated := c.time)],
             accepted := b.accepted + [Accepted(c.id, r.version + 1)], repos := b.repos + {c.repo},
             log := b.log + [Write(c.id, r.version + 1, Some(c.expected), r.repo, c.repo)])
        else
          b.(conflicts := b.conflicts + [Conflict(c.id, r.version)])
  }

  function PushAll(db: Database, user: Guid, changes: seq<PushChange>): Batch {
    if changes == [] then Batch(db.records, [], [], {}, [])
    else Push1(db, user, PushAll(db, user, changes[..|changes| - 1]), changes[|changes| - 1])
  }

  function Bump(versions: map<Guid, nat>, repos: set<Guid>): map<Guid, nat> {
    map repo | repo in versions.Keys + repos ::
      GlobalVersion(versions, repo) + if repo in repos then 1 else 0
  }

  datatype Request =
    | Create(user: Guid, id: Guid, repo: Guid, blob: string, time: int)
    | Update(user: Guid, id: Guid, blob: string, expected: int, time: int)
    | Delete(user: Guid, id: Guid, expected: int, time: int)
    | Push(user: Guid, changes: seq<PushChange>)
    | Pull(user: Guid, repo: Guid, since: int)
    | Status(user: Guid, repo: Guid)
    | Administer(owners: map<Guid, Guid>, members: set<(Guid, Guid)>) // repositories are made and shared

  // The new database, the response, and the writes that were accepted.
  datatype Result = Result(db: Database, response: Response, log: seq<Write>)

  // Changes one record, if it exists, may be changed, and has the expected version.
  function Change(db: Database, user: Guid, id: Guid, expected: int, change: OtpRecord -> OtpRecord): Result {
    var at := Find(db.records, id);
    if at.None? then Result(db, NotFound, [])
    else
      var r := db.records[at.value];
      if !HasRepoAccess(db, r.repo, user) then Result(db, Forbidden, [])
      else if expected != r.version then Result(db, Stale(r.version), [])
      else
        Result(db.(records := db.records[at.value := change(r).(id := r.id, repo := r.repo, version := r.version + 1)],
                   versions := Bump(db.versions, {r.repo})),
               Ok(r.version + 1), [Write(id, r.version + 1, Some(expected), r.repo, r.repo)])
  }

  function Handle(db: Database, q: Request): Result {
    match q
    case Create(user, id, repo, blob, time) =>
      if !HasRepoAccess(db, repo, user) then Result(db, Forbidden, [])
      else if Find(db.records, id).Some? then Result(db, Failed, [])
      else
        Result(db.(records := db.records + [NewRecord(id, blob, repo, time)], versions := Bump(db.versions, {repo})),
               Ok(1), [Write(id, 1, None, repo, repo)])
    case Update(user, id, blob, expected, time) =>
      Change(db, user, id, expected, (r: OtpRecord) => r.(blob := blob, updated := time))
    case Delete(user, id, expected, time) =>
      Change(db, user, id, expected, (r: OtpRecord) => r.(deleted := Some(time)))
    case Push(user, changes) =>
      var b := PushAll(db, user, changes);
      Result(db.(records := b.records, versions := Bump(db.versions, b.repos)), Pushed(b.accepted, b.conflicts), b.log)
    case Pull(user, repo, since) =>
      if !HasRepoAccess(db, repo, user) then Result(db, Forbidden, [])
      else Result(db, Pulled(Newer(db.records, repo, since), GlobalVersion(db.versions, repo)), [])
    case Status(user, repo) =>
      if !HasRepoAccess(db, repo, user) then Result(db, Forbidden, [])
      else Result(db, Ok(GlobalVersion(db.versions, repo)), [])
    case Administer(owners, members) => Result(db.(owners := owners, members := members), Ok(0), [])
  }

  const EMPTY_DB: Database := Database([], map[], map[], {})

  function Served(qs: seq<Request>): Database {
    if qs == [] then EMPTY_DB else Handle(Served(qs[..|qs| - 1]), qs[|qs| - 1]).db
  }

  function Log(qs: seq<Request>): seq<Write> {
    if qs == [] then []
    else Log(qs[..|qs| - 1]) + Handle(Served(qs[..|qs| - 1]), qs[|qs| - 1]).log
  }

  // ---------- histories ----------

  function Writes(log: seq<Write>, id: Guid): nat {
    if log == [] then 0 else Writes(log[..|log| - 1], id) + if log[|log| - 1].id == id then 1 else 0
  }

  // The k-th write of a record has version k, and all but the first name the version before.
  ghost predicate Sequential(log: seq<Write>) {
    forall k :: 0 <= k < |log| ==>
      && log[k].version == Writes(log[..k], log[k].id) + 1
      && log[k].base == if log[k].version == 1 then None else Some(log[k].version - 1)
  }

  ghost predicate UniqueIds(rows: seq<OtpRecord>) {
    forall i, j :: 0 <= i < j < |rows| ==> rows[i].id != rows[j].id
  }

  // A record's version is the number of writes to it.
  ghost predicate Current(rows: seq<OtpRecord>, log: seq<Write>) {
    && UniqueIds(rows)
    && (forall i :: 0 <= i < |rows| ==> rows[i].version == Writes(log, rows[i].id) > 0)
    && (forall id | Find(rows, id).None? :: Writes(log, id) == 0)
  }

  ghost predicate History(rows: seq<OtpRecord>, log: seq<Write>) { Sequential(log) && Current(rows, log) }

  lemma WritesAppend(log: seq<Write>, w: Write)
    ensures forall id :: Writes(log + [w], id) == Writes(log, id) + if w.id == id then 1 else 0
  {
    assert (log + [w])[..|log|] == log;
  }

  lemma SequentialAppend(log: seq<Write>, w: Write)
    requires Sequential(log) && w.version == Writes(log, w.id) + 1
    requires w.base == if w.version == 1 then None else Some(w.version - 1)
    ensures Sequential(log + [w])
  {
    forall k | 0 <= k < |log| + 1
      ensures (log + [w])[k].version == Writes((log + [w])[..k], (log + [w])[k].id) + 1
    {
      assert (log + [w])[..k] == log[..k];
      assert log[..|log|] == log;
    }
  }

  lemma AddHistory(rows: seq<OtpRecord>, log: seq<Write>, r: OtpRecord, named: Guid)
    requires History(rows, log) && Find(rows, r.id).None? && r.version == 1
    ensures History(rows + [r], log + [Write(r.id, 1, None, r.repo, named)])
  {
    var w, more := Write(r.id, 1, None, r.repo, named), rows + [r];
    WritesAppend(log, w);
    SequentialAppend(log, w);
    forall id | Find(more, id).None? ensures Writes(log + [w], id) == 0 {
      assert more[|rows|].id != id && forall i :: 0 <= i < |rows| ==> more[i].id == rows[i].id;
      assert Find(rows, id).None?;
    }
  }

  lemma ChangeHistory(rows: seq<OtpRecord>, log: seq<Write>, i: nat, r: OtpRecord, named: Guid)
    requires History(rows, log) && i < |rows| && r.id == rows[i].id && r.version == rows[i].version + 1
    ensures History(rows[i := r], log + [Write(r.id, r.version, Some(rows[i].version), r.repo, named)])
  {
    var w, more := Write(r.id, r.version, Some(rows[i].version), r.repo, named), rows[i := r];
    WritesAppend(log, w);
    SequentialAppend(log, w);
    forall id | Find(more, id).None? ensures Writes(log + [w], id) == 0 {
      assert forall i :: 0 <= i < |rows| ==> more[i].id == rows[i].id;
      assert Find(rows, id).None?;
    }
  }

  lemma {:induction false} PushHistory(db: Database, user: Guid, changes: seq<PushChange>, log: seq<Write>)
    requires History(db.records, log)
    ensures var b := PushAll(db, user, changes); History(b.records, log + b.log)
  {
    hide History;
    if changes == [] {
      assert log + [] == log;
    } else {
      var c := changes[|changes| - 1];
      PushHistory(db, user, changes[..|changes| - 1], log);
      var b := PushAll(db, user, changes[..|changes| - 1]);
      var at := Find(b.records, c.id);
      assert forall w :: log + (b.log + [w]) == log + b.log + [w];
      if HasRepoAccess(db, c.repo, user) {
        if at.None? {
          AddHistory(b.records, log + b.log, NewRecord(c.id, c.blob, c.repo, c.time), c.repo);
        } else if c.expected == b.records[at.value].version {
          var r := b.records[at.value];
          ChangeHistory(b.records, log + b.log, at.value,
                        r.(blob := c.blob, version := r.version + 1, updated := c.time), c.repo);
        }
      }
    }
  }

  lemma HandleHistory(db: Database, q: Request, log: seq<Write>)
    requires History(db.records, log)
    ensures var result := Handle(db, q); History(result.db.records, log + result.log)
  {
    hide History;
    assert log + [] == log;
    match q {
      case Create(user, id, repo, blob, time) =>
        if Find(db.records, id).None? { AddHistory(db.records, log, NewRecord(id, blob, repo, time), repo); }
      case Update(user, id, blob, expected, time) =>
        ChangesHistory(db, user, id, expected, (r: OtpRecord) => r.(blob := blob, updated := time), log);
      case Delete(user, id, expected, time) =>
        ChangesHistory(db, user, id, expected, (r: OtpRecord) => r.(deleted := Some(time)), log);
      case Push(user, changes) => PushHistory(db, user, changes, log);
      case _ =>
    }
  }

  lemma ChangesHistory(db: Database, user: Guid, id: Guid, expected: int, change: OtpRecord -> OtpRecord,
                       log: seq<Write>)
    requires History(db.records, log)
    ensures var result := Change(db, user, id, expected, change); History(result.db.records, log + result.log)
  {
    hide History;
    assert log + [] == log;
    var at := Find(db.records, id);
    if at.Some? {
      var r := db.records[at.value];
      ChangeHistory(db.records, log, at.value, change(r).(id := r.id, repo := r.repo, version := r.version + 1),
                    r.repo);
    }
  }

  // Over every run, the accepted writes to a record have the versions 1, 2, 3 and so on, each but
  // the first based on the one before, and the stored version is that of the last.
  lemma {:induction false} RunsAreSequential(qs: seq<Request>)
    ensures History(Served(qs).records, Log(qs))
  {
    hide History, Handle;
    if qs == [] {
      NoHistory();
    } else {
      RunsAreSequential(qs[..|qs| - 1]);
      HandleHistory(Served(qs[..|qs| - 1]), qs[|qs| - 1], Log(qs[..|qs| - 1]));
    }
  }

  lemma NoHistory()
    ensures History([], [])
  {
  }

  // The version of a record; none has version 0.
  function VersionOf(rows: seq<OtpRecord>, id: Guid): nat {
    var at := Find(rows, id);
    if at.Some? then rows[at.value].version else 0
  }

  lemma {:induction false} WritesConcat(a: seq<Write>, b: seq<Write>, id: Guid)
    ensures Writes(a + b, id) == Writes(a, id) + Writes(b, id)
  {
    if b == [] {
      assert a + b == a;
    } else {
      WritesConcat(a, b[..|b| - 1], id);
      assert (a + b)[..|a + b| - 1] == a + b[..|b| - 1];
    }
  }

  lemma VersionIsWrites(rows: seq<OtpRecord>, log: seq<Write>, id: Guid)
    requires Current(rows, log)
    ensures VersionOf(rows, id) == Writes(log, id)
  {
  }

  // ---------- single requests ----------

  // A request that only reads, or is refused.
  predicate Idle(db: Database, q: Request) {
    q.Pull? || q.Status? || ((q.Create? || q.Update? || q.Delete?) && !Handle(db, q).response.Ok?)
  }

  // Such a request leaves no trace: without it the rest of the run, its accepted writes and the final
  // database are the same.
  lemma {:induction false} IdleLeavesNoTrace(qs: seq<Request>, i: nat)
    requires i < |qs| && Idle(Served(qs[..i]), qs[i])
    ensures Served(qs[..i] + qs[i + 1..]) == Served(qs) && Log(qs[..i] + qs[i + 1..]) == Log(qs)
  {
    hide Handle, Idle, Served, Log;
    var n := |qs| - 1;
    var front, q := qs[..n], qs[n];
    assert qs == front + [q];
    OneMoreServed(front, q);
    if i == n {
      IdleChangesNothing(Served(front), q);
      assert qs[..n] + qs[n + 1..] == front;
      assert Log(front) + [] == Log(front);
    } else {
      assert front[..i] == qs[..i] && front[i + 1..] == qs[i + 1..n];
      IdleLeavesNoTrace(front, i);
      OneMoreServed(front[..i] + front[i + 1..], q);
      assert qs[..i] + qs[i + 1..] == front[..i] + front[i + 1..] + [q];
    }
  }

  lemma OneMoreServed(qs: seq<Request>, q: Request)
    ensures Served(qs + [q]) == Handle(Served(qs), q).db && Log(qs + [q]) == Log(qs) + Handle(Served(qs), q).log
  {
    hide Handle;
    assert (qs + [q])[..|qs|] == qs;
  }

  lemma IdleChangesNothing(db: Database, q: Request)
    requires Idle(db, q)
    ensures Handle(db, q).db == db && Handle(db, q).log == []
  {
  }

  // An accepted update or delete changes the one record that it names, and of that only what it
  // is for; the counter of the record's repository moves by one, and no other counter moves.
  lemma AcceptedChangeIsLocal(db: Database, q: Request)
    requires UniqueIds(db.records) && (q.Update? || q.Delete?) && Handle(db, q).response.Ok?
    ensures var at, after := Find(db.records, q.id), Handle(db, q).db;
            && at.Some? && |after.records| == |db.records|
            && (forall i :: 0 <= i < |db.records| && i != at.value ==> after.records[i] == db.records[i])
            && (var r, r' := db.records[at.value], after.records[at.value];
                && q.expected == r.version && r'.version == r.version + 1 && Handle(db, q).response == Ok(r'.version)
                && r'.id == q.id && r'.repo == r.repo && r'.created == r.created
                && (if q.Update? then r'.blob == q.blob && r'.updated == q.time && r'.deleted == r.deleted
                    else r'.blob == r.blob && r'.updated == r.updated && r'.deleted == Some(q.time))
                && forall repo :: GlobalVersion(after.versions, repo) ==
                                  GlobalVersion(db.versions, repo) + if repo == r.repo then 1 else 0)
  {
    BumpedBy(db.versions, {db.records[Find(db.records, q.id).value].repo});
  }

  // The changes of a batch that the user may make.
  function Permitted(db: Database, user: Guid, changes: seq<PushChange>): nat {
    if changes == [] then 0
    else Permitted(db, user, changes[..|changes| - 1]) +
         if HasRepoAccess(db, changes[|changes| - 1].repo, user) then 1 else 0
  }

  // The response to a batch accounts for every permitted change once, and reports the accepted
  // ones as they were written; the repositories to bump are exactly those that were named by them.
  lemma {:induction false} ResponseAccountsForBatch(db: Database, user: Guid, changes: seq<PushChange>)
    ensures var b := PushAll(db, user, changes);
            && |b.accepted| + |b.conflicts| == Permitted(db, user, changes)
            && |b.accepted| == |b.log|
            && (forall k :: 0 <= k < |b.log| ==> b.accepted[k] == Accepted(b.log[k].id, b.log[k].version))
            && (forall repo :: repo in b.repos <==> Named(b.log, repo))
            && |b.records| >= |db.records|
  {
    if changes != [] {
      hide Named, Find;
      ResponseAccountsForBatch(db, user, changes[..|changes| - 1]);
      var b0, b := PushAll(db, user, changes[..|changes| - 1]), PushAll(db, user, changes);
      if b.log != b0.log {
        NamedMore(b0.log, b.log[|b0.log|]);
        assert b.log == b0.log + [b.log[|b0.log|]];
      }
    }
  }

  predicate Named(log: seq<Write>, repo: Guid) { exists k :: 0 <= k < |log| && log[k].named == repo }

  lemma NamedMore(log: seq<Write>, w: Write)
    ensures forall repo :: Named(log + [w], repo) <==> repo == w.named || Named(log, repo)
  {
    assert (log + [w])[|log|] == w;
    forall repo | Named(log, repo) ensures Named(log + [w], repo) {
      var k :| 0 <= k < |log| && log[k].named == repo;
      assert (log + [w])[k].named == repo;
    }
  }

  // ---------- who is answered what ----------

  predicate Absent(rows: seq<OtpRecord>, id: Guid) { forall i :: 0 <= i < |rows| ==> rows[i].id != id }

  // Owners and members have access to repositories that exist, and nobody else has.
  lemma AccessIff(db: Database, repo: Guid, user: Guid)
    ensures repo !in db.owners ==> !HasRepoAccess(db, repo, user)
    ensures !HasRepoAccess(db, repo, NOBODY)
    ensures repo in db.owners && user != NOBODY ==>
              (HasRepoAccess(db, repo, user) <==> db.owners[repo] == user || (repo, user) in db.members)
  {
  }

  // The only change to the database is that this record is new.
  ghost predicate Added(before: Database, after: Database, r: OtpRecord) {
    after.records == before.records + [r] && after.owners == before.owners && after.members == before.members
  }

  // A create is refused to those without access and where the id is taken, and otherwise adds its record at
  // version 1.
  lemma CreatesAreAnswered(db: Database, q: Request)
    requires q.Create?
    ensures var answer := Handle(db, q);
            && (answer.response == Forbidden <==> !HasRepoAccess(db, q.repo, q.user))
            && (answer.response == Failed <==> HasRepoAccess(db, q.repo, q.user) && !Absent(db.records, q.id))
            && (answer.response == Ok(1) <==> HasRepoAccess(db, q.repo, q.user) && Absent(db.records, q.id))
            && (answer.response == Forbidden || answer.response == Failed || answer.response == Ok(1))
            && (answer.response == Ok(1) ==>
                  Added(db, answer.db, OtpRecord(q.id, q.blob, 1, q.time, q.time, None, q.repo)))
  {
  }

  // An update or delete of a record is judged, in this order, by whether there is such a record, whether the
  // user has access to the repository in which it is, and whether its version is the expected one.
  lemma ChangesAreAnswered(db: Database, q: Request, i: nat)
    requires UniqueIds(db.records) && (q.Update? || q.Delete?)
    ensures Handle(db, q).response == NotFound <==> Absent(db.records, q.id)
    ensures i < |db.records| && db.records[i].id == q.id ==>
              var r, response := db.records[i], Handle(db, q).response;
              && (response == Forbidden <==> !HasRepoAccess(db, r.repo, q.user))
              && (response == Stale(r.version) <==> HasRepoAccess(db, r.repo, q.user) && q.expected != r.version)
              && (response == Ok(r.version + 1) <==> HasRepoAccess(db, r.repo, q.user) && q.expected == r.version)
              && (response == Forbidden || response == Stale(r.version) || response == Ok(r.version + 1))
  {
  }

  // A pull and a status are refused to those without access; a pull gives the records of the repository above
  // the given version, each as often as it is stored and ordered by version, and both give its counter.
  lemma ReadsAreAnswered(db: Database, q: Request, r: OtpRecord)
    requires q.Pull? || q.Status?
    ensures Handle(db, q).response == Forbidden <==> !HasRepoAccess(db, q.repo, q.user)
    ensures HasRepoAccess(db, q.repo, q.user) ==>
              var response, counter := Handle(db, q).response, GlobalVersion(db.versions, q.repo);
              if q.Status? then response == Ok(counter)
              else && response.Pulled? && response.serverVersion == counter && ByVersion(response.items)
                   && multiset(response.items)[r] ==
                      if r.repo == q.repo && r.version > q.since then multiset(db.records)[r] else 0
  {
    if q.Pull? {
      PullInOrder(db.records, q.repo, q.since);
      PullIsFilter(db.records, q.repo, q.since, r);
    }
  }

  lemma {:induction false} PushUnique(db: Database, user: Guid, changes: seq<PushChange>)
    requires UniqueIds(db.records)
    ensures UniqueIds(PushAll(db, user, changes).records)
  {
    if changes != [] { PushUnique(db, user, changes[..|changes| - 1]); }
  }

  // The changes before the k-th, and those up to it.
  function Before(db: Database, user: Guid, changes: seq<PushChange>, k: nat): Batch
    requires k <= |changes|
  {
    PushAll(db, user, changes[..k])
  }

  // Whatever came before it in the batch, a change that is not permitted does nothing; one whose id is new adds
  // its record at version 1; one that expects the version of its record rewrites blob and time of that record
  // alone; and any other is a conflict with the version of the record, and changes no record.
  lemma EachChangeIsJudged(db: Database, user: Guid, changes: seq<PushChange>, k: nat, i: nat)
    requires UniqueIds(db.records) && k < |changes|
    ensures var b, b', c := Before(db, user, changes, k), Before(db, user, changes, k + 1), changes[k];
            && (!HasRepoAccess(db, c.repo, user) ==> b' == b)
            && (HasRepoAccess(db, c.repo, user) && Absent(b.records, c.id) ==>
                  b'.records == b.records + [OtpRecord(c.id, c.blob, 1, c.time, c.time, None, c.repo)]
                      && b'.accepted == b.accepted + [Accepted(c.id, 1)] && b'.conflicts == b.conflicts)
            && (HasRepoAccess(db, c.repo, user) && i < |b.records| && b.records[i].id == c.id ==>
                  Judged(b, b', c, i))
  {
    PushUnique(db, user, changes[..k]);
    assert changes[..k + 1][..k] == changes[..k];
  }

  // What becomes of a permitted change of the record at index i.
  ghost predicate Judged(b: Batch, b': Batch, c: PushChange, i: nat)
    requires i < |b.records|
  {
    var r := b.records[i];
    && (c.expected == r.version ==>
          b'.records == b.records[i := OtpRecord(r.id, c.blob, r.version + 1, r.created, c.time, r.deleted, r.repo)]
              && b'.accepted == b.accepted + [Accepted(c.id, r.version + 1)] && b'.conflicts == b.conflicts)
    && (c.expected != r.version ==>
          b'.records == b.records && b'.accepted == b.accepted
              && b'.conflicts == b.conflicts + [Conflict(c.id, r.version)])
  }

  // So a change is accepted exactly if it is permitted and its id is new or its version expected, and is in
  // conflict exactly if it is permitted and neither.
  lemma AcceptedIff(db: Database, user: Guid, changes: seq<PushChange>, k: nat)
    requires UniqueIds(db.records) && k < |changes|
    ensures var b, b', c := Before(db, user, changes, k), Before(db, user, changes, k + 1), changes[k];
            var permitted, fits := HasRepoAccess(db, c.repo, user), Absent(b.records, c.id) || Expected(b.records, c);
            && (b'.accepted != b.accepted <==> permitted && fits)
            && (b'.conflicts != b.conflicts <==> permitted && !fits)
  {
    var b, b', c := Before(db, user, changes, k), Before(db, user, changes, k + 1), changes[k];
    PushUnique(db, user, changes[..k]);
    EachChangeIsJudged(db, user, changes, k, 0);
    if !Absent(b.records, c.id) {
      var i :| 0 <= i < |b.records| && b.records[i].id == c.id;
      EachChangeIsJudged(db, user, changes, k, i);
    }
    forall x: Accepted ensures b.accepted != b.accepted + [x] { assert |b.accepted + [x]| == |b.accepted| + 1; }
    forall x: Conflict ensures b.conflicts != b.conflicts + [x] { assert |b.conflicts + [x]| == |b.conflicts| + 1; }
  }

  predicate Expected(rows: seq<OtpRecord>, c: PushChange) {
    exists i :: 0 <= i < |rows| && rows[i].id == c.id && rows[i].version == c.expected
  }

  // ---------- the counter of a repository ----------

  function SumVersions(rows: seq<OtpRecord>, repo: Guid): nat {
    if rows == [] then 0
    else SumVersions(rows[..|rows| - 1], repo) + if rows[|rows| - 1].repo == repo then rows[|rows| - 1].version else 0
  }

  // The counter lies between the largest version and the sum of all versions.
  ghost predicate Bounded(db: Database) {
    && (forall i :: 0 <= i < |db.records| ==> db.records[i].version <= GlobalVersion(db.versions, db.records[i].repo))
    && (forall repo :: GlobalVersion(db.versions, repo) <= SumVersions(db.records, repo))
  }

  lemma SumAppend(rows: seq<OtpRecord>, r: OtpRecord)
    ensures forall repo ::
              SumVersions(rows + [r], repo) == SumVersions(rows, repo) + if r.repo == repo then r.version else 0
  {
    assert (rows + [r])[..|rows|] == rows;
  }

  lemma {:induction false} SumUpdate(rows: seq<OtpRecord>, i: nat, r: OtpRecord, repo: Guid)
    requires i < |rows| && r.repo == rows[i].repo && r.version == rows[i].version + 1
    ensures SumVersions(rows[i := r], repo) == SumVersions(rows, repo) + if r.repo == repo then 1 else 0
  {
    var n := |rows| - 1;
    if i < n {
      SumUpdate(rows[..n], i, r, repo);
      assert rows[i := r][..n] == rows[..n][i := r];
    } else {
      assert rows[i := r][..n] == rows[..n];
    }
  }

  lemma BumpedBy(versions: map<Guid, nat>, repos: set<Guid>)
    ensures forall repo :: GlobalVersion(Bump(versions, repos), repo) ==
                           GlobalVersion(versions, repo) + if repo in repos then 1 else 0
  {
  }

  // ---------- what the counter counts ----------

  // The requests that accepted a write naming the repository.
  function Requests(qs: seq<Request>, repo: Guid): nat {
    if qs == [] then 0
    else
      var n := |qs| - 1;
      Requests(qs[..n], repo) + if Named(Handle(Served(qs[..n]), qs[n]).log, repo) then 1 else 0
  }

  // The writes to records of the repository.
  function WritesTo(log: seq<Write>, repo: Guid): nat {
    if log == [] then 0 else WritesTo(log[..|log| - 1], repo) + if log[|log| - 1].repo == repo then 1 else 0
  }

  lemma WritesToMore(log: seq<Write>, w: Write, repo: Guid)
    ensures WritesTo(log + [w], repo) == WritesTo(log, repo) + if w.repo == repo then 1 else 0
  {
    assert (log + [w])[..|log|] == log;
  }

  lemma {:induction false} WritesToConcat(a: seq<Write>, b: seq<Write>, repo: Guid)
    ensures WritesTo(a + b, repo) == WritesTo(a, repo) + WritesTo(b, repo)
  {
    if b == [] {
      assert a + b == a;
    } else {
      WritesToConcat(a, b[..|b| - 1], repo);
      assert (a + b)[..|a + b| - 1] == a + b[..|b| - 1];
    }
  }

  lemma HandleCounts(db: Database, q: Request, repo: Guid)
    ensures var result := Handle(db, q);
            GlobalVersion(result.db.versions, repo) ==
            GlobalVersion(db.versions, repo) + if Named(result.log, repo) then 1 else 0
  {
    var result := Handle(db, q);
    if q.Push? {
      ResponseAccountsForBatch(db, q.user, q.changes);
      BumpedBy(db.versions, PushAll(db, q.user, q.changes).repos);
    } else if result.log != [] {
      assert result.log == [] + [result.log[0]];
      NamedMore([], result.log[0]);
      BumpedBy(db.versions, {result.log[0].named});
    }
  }

  // Over every run the counter of a repository is the number of requests that accepted a write naming it.
  lemma {:induction false} CounterCountsRequests(qs: seq<Request>, repo: Guid)
    ensures GlobalVersion(Served(qs).versions, repo) == Requests(qs, repo)
  {
    hide Handle, Named;
    if qs != [] {
      CounterCountsRequests(qs[..|qs| - 1], repo);
      HandleCounts(Served(qs[..|qs| - 1]), qs[|qs| - 1], repo);
    }
  }

  lemma {:induction false} PushSums(db: Database, user: Guid, changes: seq<PushChange>, repo: Guid)
    ensures var b := PushAll(db, user, changes);
            SumVersions(b.records, repo) == SumVersions(db.records, repo) + WritesTo(b.log, repo)
  {
    hide SumVersions, WritesTo;
    if changes == [] {
      assert WritesTo([], repo) == 0 by { NoWritesTo(repo); }
    } else {
      var c := changes[|changes| - 1];
      PushSums(db, user, changes[..|changes| - 1], repo);
      var b := PushAll(db, user, changes[..|changes| - 1]);
      var b' := Push1(db, user, b, c);
      var at := Find(b.records, c.id);
      if HasRepoAccess(db, c.repo, user) {
        if at.None? {
          SumAppend(b.records, NewRecord(c.id, c.blob, c.repo, c.time));
          WritesToMore(b.log, b'.log[|b.log|], repo);
        } else if c.expected == b.records[at.value].version {
          SumUpdate(b.records, at.value, b'.records[at.value], repo);
          WritesToMore(b.log, b'.log[|b.log|], repo);
        }
      }
    }
  }

  lemma NoWritesTo(repo: Guid)
    ensures WritesTo([], repo) == 0
  {
  }

  lemma HandleSums(db: Database, q: Request, repo: Guid)
    ensures var result := Handle(db, q);
            SumVersions(result.db.records, repo) == SumVersions(db.records, repo) + WritesTo(result.log, repo)
  {
    hide SumVersions;
    var result := Handle(db, q);
    match q {
      case Create(user, id, name, blob, time) => SumAppend(db.records, NewRecord(id, blob, name, time));
      case Push(user, changes) => PushSums(db, user, changes, repo);
      case Update(_, id, _, _, _) =>
        if result.log != [] { SumUpdate(db.records, Find(db.records, id).value, ChangedRecord(db, q), repo); }
      case Delete(_, id, _, _) =>
        if result.log != [] { SumUpdate(db.records, Find(db.records, id).value, ChangedRecord(db, q), repo); }
      case _ =>
    }
  }

  // The record that an accepted update or delete leaves.
  function ChangedRecord(db: Database, q: Request): OtpRecord
    requires (q.Update? || q.Delete?) && Handle(db, q).log != []
  {
    Handle(db, q).db.records[Find(db.records, q.id).value]
  }

  // Over every run the versions of a repository's records add up to the number of accepted writes to them.
  lemma {:induction false} SumCountsWrites(qs: seq<Request>, repo: Guid)
    ensures SumVersions(Served(qs).records, repo) == WritesTo(Log(qs), repo)
  {
    hide Handle;
    if qs != [] {
      var n := |qs| - 1;
      SumCountsWrites(qs[..n], repo);
      HandleSums(Served(qs[..n]), qs[n], repo);
      WritesToConcat(Log(qs[..n]), Handle(Served(qs[..n]), qs[n]).log, repo);
    }
  }

  // So a run meets the bounds exactly when no record was written more often than requests named its
  // repository, and no repository was named by more requests than there were writes to its records.
  lemma BoundsAreExact(qs: seq<Request>)
    ensures var rows := Served(qs).records;
            Bounded(Served(qs)) <==>
            && (forall i :: 0 <= i < |rows| ==> Writes(Log(qs), rows[i].id) <= Requests(qs, rows[i].repo))
            && (forall repo :: Requests(qs, repo) <= WritesTo(Log(qs), repo))
  {
    hide Served, Log, Requests, WritesTo, SumVersions, GlobalVersion;
    RunsAreSequential(qs);
    forall repo
      ensures GlobalVersion(Served(qs).versions, repo) == Requests(qs, repo)
      ensures SumVersions(Served(qs).records, repo) == WritesTo(Log(qs), repo)
    {
      CounterCountsRequests(qs, repo);
      SumCountsWrites(qs, repo);
    }
    var rows, versions := Served(qs).records, Served(qs).versions;
    if Bounded(Served(qs)) {
      forall repo ensures Requests(qs, repo) <= WritesTo(Log(qs), repo) {
        assert GlobalVersion(versions, repo) <= SumVersions(rows, repo);
      }
    } else if i :| 0 <= i < |rows| && rows[i].version > GlobalVersion(versions, rows[i].repo) {
      assert Writes(Log(qs), rows[i].id) > Requests(qs, rows[i].repo);
    } else {
      var repo :| GlobalVersion(versions, repo) > SumVersions(rows, repo);
      assert Requests(qs, repo) > WritesTo(Log(qs), repo);
    }
  }

  // ---------- one request ----------

  // The bounds after these writes, told from the database before: each record that is written stays within
  // its repository's counter, which moves by one if it is named, and each named counter within the sum.
  ghost predicate Fits(db: Database, log: seq<Write>) {
    forall k :: 0 <= k < |log| ==> FitsOne(db, log, log[k])
  }

  predicate FitsOne(db: Database, log: seq<Write>, w: Write) {
    && VersionOf(db.records, w.id) + Writes(log, w.id) <=
       GlobalVersion(db.versions, w.repo) + (if Named(log, w.repo) then 1 else 0)
    && GlobalVersion(db.versions, w.named) + 1 <= SumVersions(db.records, w.named) + WritesTo(log, w.named)
  }

  // Every write went to the repository in which its record is stored.
  ghost predicate Homes(rows: seq<OtpRecord>, log: seq<Write>) {
    forall k, i :: 0 <= k < |log| && 0 <= i < |rows| && log[k].id == rows[i].id ==> log[k].repo == rows[i].repo
  }

  lemma AddHomes(rows: seq<OtpRecord>, log: seq<Write>, r: OtpRecord, w: Write)
    requires History(rows, log) && Homes(rows, log) && Find(rows, r.id).None? && w.id == r.id && w.repo == r.repo
    ensures Homes(rows + [r], log + [w])
  {
    assert Writes(log, r.id) == 0;
    forall k | 0 <= k < |log| ensures log[k].id != r.id { WrittenIsCounted(log, k); }
  }

  lemma {:induction false} WrittenIsCounted(log: seq<Write>, k: nat)
    requires k < |log|
    ensures Writes(log, log[k].id) > 0
  {
    if k < |log| - 1 { WrittenIsCounted(log[..|log| - 1], k); }
  }

  lemma {:induction false} CountedIsWritten(log: seq<Write>, id: Guid)
    requires Writes(log, id) > 0
    ensures exists k :: 0 <= k < |log| && log[k].id == id
  {
    var n := |log| - 1;
    if log[n].id != id {
      CountedIsWritten(log[..n], id);
      var k :| 0 <= k < n && log[..n][k].id == id;
      assert log[k].id == id;
    }
  }

  lemma ChangeHomes(rows: seq<OtpRecord>, log: seq<Write>, i: nat, r: OtpRecord, w: Write)
    requires UniqueIds(rows) && Homes(rows, log) && i < |rows| && r.id == rows[i].id && r.repo == rows[i].repo
    requires w.id == r.id && w.repo == r.repo
    ensures Homes(rows[i := r], log + [w])
  {
  }

  lemma {:induction false} PushHomes(db: Database, user: Guid, changes: seq<PushChange>, log: seq<Write>)
    requires History(db.records, log) && Homes(db.records, log)
    ensures var b := PushAll(db, user, changes); Homes(b.records, log + b.log)
  {
    hide History, Homes;
    if changes == [] {
      assert log + [] == log;
    } else {
      var c := changes[|changes| - 1];
      var b := PushAll(db, user, changes[..|changes| - 1]);
      PushHomes(db, user, changes[..|changes| - 1], log);
      PushHistory(db, user, changes[..|changes| - 1], log);
      assert forall w :: log + (b.log + [w]) == log + b.log + [w];
      var at := Find(b.records, c.id);
      var b' := Push1(db, user, b, c);
      if HasRepoAccess(db, c.repo, user) {
        if at.None? {
          AddHomes(b.records, log + b.log, b'.records[|b.records|], b'.log[|b.log|]);
        } else if c.expected == b.records[at.value].version {
          HistoryIsUnique(b.records, log + b.log);
          ChangeHomes(b.records, log + b.log, at.value, b'.records[at.value], b'.log[|b.log|]);
        }
      }
    }
  }

  lemma HistoryIsUnique(rows: seq<OtpRecord>, log: seq<Write>)
    requires History(rows, log)
    ensures UniqueIds(rows) && forall id :: VersionOf(rows, id) == Writes(log, id)
  {
  }

  lemma HandleHomes(db: Database, q: Request, log: seq<Write>)
    requires History(db.records, log) && Homes(db.records, log)
    ensures var result := Handle(db, q); Homes(result.db.records, log + result.log)
  {
    hide History, Homes;
    var result := Handle(db, q);
    HistoryIsUnique(db.records, log);
    assert log + [] == log;
    match q {
      case Create(user, id, repo, blob, time) =>
        if result.log != [] { AddHomes(db.records, log, NewRecord(id, blob, repo, time), result.log[0]); }
      case Push(user, changes) => PushHomes(db, user, changes, log);
      case Update(_, id, _, _, _) =>
        if result.log != [] {
          ChangeHomes(db.records, log, Find(db.records, id).value, ChangedRecord(db, q), result.log[0]);
        }
      case Delete(_, id, _, _) =>
        if result.log != [] {
          ChangeHomes(db.records, log, Find(db.records, id).value, ChangedRecord(db, q), result.log[0]);
        }
      case _ =>
    }
  }

  lemma {:induction false} RunHomes(qs: seq<Request>)
    ensures Homes(Served(qs).records, Log(qs))
  {
    hide Handle, History;
    if qs != [] {
      RunHomes(qs[..|qs| - 1]);
      RunsAreSequential(qs[..|qs| - 1]);
      HandleHomes(Served(qs[..|qs| - 1]), qs[|qs| - 1], Log(qs[..|qs| - 1]));
    }
  }

  // Whatever the request, it keeps the bounds exactly when the writes that it accepts fit.
  lemma RequestKeepsBoundsIff(qs: seq<Request>, q: Request)
    requires Bounded(Served(qs))
    ensures Bounded(Served(qs + [q])) <==> Fits(Served(qs), Handle(Served(qs), q).log)
  {
    hide Served, Log, Handle, WritesTo, SumVersions, GlobalVersion, Named, VersionOf;
    var db, more := Served(qs), Handle(Served(qs), q).log;
    var after := Handle(db, q).db;
    OneMoreServed(qs, q);
    RunsAreSequential(qs);
    RunsAreSequential(qs + [q]);
    HistoryIsUnique(db.records, Log(qs));
    forall id ensures Writes(Log(qs) + more, id) == VersionOf(db.records, id) + Writes(more, id) {
      WritesConcat(Log(qs), more, id);
    }
    forall repo
      ensures GlobalVersion(after.versions, repo) ==
              GlobalVersion(db.versions, repo) + if Named(more, repo) then 1 else 0
      ensures SumVersions(after.records, repo) == SumVersions(db.records, repo) + WritesTo(more, repo)
    {
      HandleCounts(db, q, repo);
      HandleSums(db, q, repo);
    }
    RunHomes(qs);
    RunHomes(qs + [q]);
    if Bounded(after) { BoundedFits(db, more, after, Log(qs)); }
    if Fits(db, more) { FitsBounded(db, more, after, Log(qs)); }
  }

  // What a request does to records, counters and sums.
  ghost predicate Wrote(db: Database, more: seq<Write>, after: Database, log: seq<Write>) {
    && History(db.records, log) && Homes(db.records, log)
    && History(after.records, log + more) && Homes(after.records, log + more)
    && (forall id :: Writes(log + more, id) == VersionOf(db.records, id) + Writes(more, id))
    && (forall repo :: GlobalVersion(after.versions, repo) ==
                       GlobalVersion(db.versions, repo) + if Named(more, repo) then 1 else 0)
    && (forall repo :: SumVersions(after.records, repo) == SumVersions(db.records, repo) + WritesTo(more, repo))
  }

  lemma BoundedFits(db: Database, more: seq<Write>, after: Database, log: seq<Write>)
    requires Wrote(db, more, after, log) && Bounded(after)
    ensures Fits(db, more)
  {
    hide WritesTo, SumVersions, GlobalVersion, Named, VersionOf;
    forall k | 0 <= k < |more| ensures FitsOne(db, more, more[k]) {
      var w, all := more[k], log + more;
      assert all[|log| + k] == w;
      WrittenIsCounted(all, |log| + k);
      NamedAt(more, k);
      var at := Find(after.records, w.id);
      assert at.Some?;
      assert after.records[at.value].repo == w.repo;
    }
  }

  lemma NamedAt(log: seq<Write>, k: nat)
    requires k < |log|
    ensures Named(log, log[k].named)
  {
  }

  lemma FitsBounded(db: Database, more: seq<Write>, after: Database, log: seq<Write>)
    requires Wrote(db, more, after, log) && Bounded(db) && Fits(db, more)
    ensures Bounded(after)
  {
    hide WritesTo, SumVersions, GlobalVersion, VersionOf;
    forall i | 0 <= i < |after.records|
      ensures after.records[i].version <= GlobalVersion(after.versions, after.records[i].repo)
    {
      RecordFits(db, more, after, log, i);
    }
    forall repo ensures GlobalVersion(after.versions, repo) <= SumVersions(after.records, repo) {
      if Named(more, repo) {
        var k :| 0 <= k < |more| && more[k].named == repo;
        assert FitsOne(db, more, more[k]);
      }
    }
  }

  lemma RecordFits(db: Database, more: seq<Write>, after: Database, log: seq<Write>, i: nat)
    requires Wrote(db, more, after, log) && Bounded(db) && Fits(db, more) && i < |after.records|
    ensures after.records[i].version <= GlobalVersion(after.versions, after.records[i].repo)
  {
    hide WritesTo, SumVersions, GlobalVersion, Named;
    var r, all := after.records[i], log + more;
    if Writes(more, r.id) > 0 {
      CountedIsWritten(more, r.id);
      var k :| 0 <= k < |more| && more[k].id == r.id;
      assert all[|log| + k] == more[k] && FitsOne(db, more, more[k]);
    } else {
      var at := Find(db.records, r.id);
      assert at.Some?;
      CountedIsWritten(log, r.id);
      var k :| 0 <= k < |log| && log[k].id == r.id;
      assert all[k] == log[k];
    }
  }

  // ---------- runs that keep the bounds ----------

  // Every accepted write names the repository of its record, and no record is written twice.
  ghost predicate Tidy(log: seq<Write>) {
    && (forall k :: 0 <= k < |log| ==> log[k].named == log[k].repo)
    && (forall j, k :: 0 <= j < k < |log| ==> log[j].id != log[k].id)
  }

  ghost predicate TidyRequest(db: Database, q: Request) { q.Push? ==> Tidy(Handle(db, q).log) }

  ghost predicate TidyRun(qs: seq<Request>) {
    qs == [] || (TidyRun(qs[..|qs| - 1]) && TidyRequest(Served(qs[..|qs| - 1]), qs[|qs| - 1]))
  }

  // Requests that are not batches write at most one record, under its own repository.
  lemma SinglesAreTidy(db: Database, q: Request)
    requires !q.Push?
    ensures Tidy(Handle(db, q).log)
  {
  }

  lemma {:induction false} WrittenOnce(log: seq<Write>, id: Guid)
    requires forall j, k :: 0 <= j < k < |log| ==> log[j].id != log[k].id
    ensures Writes(log, id) <= 1
  {
    if log != [] {
      var n := |log| - 1;
      WrittenOnce(log[..n], id);
      if log[n].id == id && Writes(log[..n], id) > 0 { CountedIsWritten(log[..n], id); }
    }
  }

  lemma {:induction false} WrittenToIsCounted(log: seq<Write>, k: nat)
    requires k < |log|
    ensures WritesTo(log, log[k].repo) > 0
  {
    if k < |log| - 1 { WrittenToIsCounted(log[..|log| - 1], k); }
  }

  lemma TidyFits(qs: seq<Request>, q: Request)
    requires Bounded(Served(qs)) && Tidy(Handle(Served(qs), q).log)
    ensures Fits(Served(qs), Handle(Served(qs), q).log)
  {
    hide Served, Log, Handle, WritesTo, SumVersions, GlobalVersion, Named;
    var db, more := Served(qs), Handle(Served(qs), q).log;
    OneMoreServed(qs, q);
    RunHomes(qs + [q]);
    RunsAreSequential(qs);
    RunsAreSequential(qs + [q]);
    RunHomes(qs);
    forall k | 0 <= k < |more| ensures FitsOne(db, more, more[k]) {
      var w, all := more[k], Log(qs) + more;
      assert all[|Log(qs)| + k] == w;
      WrittenOnce(more, w.id);
      WrittenToIsCounted(more, k);
      NamedAt(more, k);
      StoredAtHome(db, Handle(db, q).db, Log(qs), more, w);
    }
  }

  // A record that is written was within its counter.
  lemma StoredAtHome(db: Database, after: Database, log: seq<Write>, more: seq<Write>, w: Write)
    requires Bounded(db) && History(db.records, log) && Homes(db.records, log) && w in more
    requires History(after.records, log + more) && Homes(after.records, log + more)
    ensures VersionOf(db.records, w.id) <= GlobalVersion(db.versions, w.repo)
  {
    hide SumVersions, GlobalVersion;
    var at, all := Find(db.records, w.id), log + more;
    if at.Some? {
      var k :| 0 <= k < |more| && more[k] == w;
      assert all[|log| + k] == w;
      WrittenIsCounted(all, |log| + k);
      var j := Find(after.records, w.id).value;
      CountedIsWritten(log, w.id);
      var i :| 0 <= i < |log| && log[i].id == w.id;
      assert all[i] == log[i];
    }
  }

  // When the accepted writes of every batch are tidy, the counter of a repository stays between the largest
  // version in it and the sum of the versions in it.
  lemma {:induction false} CountersAreBounded(qs: seq<Request>)
    requires TidyRun(qs)
    ensures Bounded(Served(qs))
  {
    hide Bounded, Handle, Tidy, Fits;
    if qs == [] {
      NothingBounded();
    } else {
      var n := |qs| - 1;
      CountersAreBounded(qs[..n]);
      if !qs[n].Push? { SinglesAreTidy(Served(qs[..n]), qs[n]); }
      TidyFits(qs[..n], qs[n]);
      RequestKeepsBoundsIff(qs[..n], qs[n]);
      assert qs[..n] + [qs[n]] == qs;
    }
  }

  lemma NothingBounded()
    ensures Bounded(EMPTY_DB)
  {
  }

  // ---------- where the bounds fail ----------

  const ALICE: Guid := 1
  const HOME: Guid := 10
  const WORK: Guid := 11

  function Setup(): seq<Request> {
    [Administer(map[HOME := ALICE, WORK := ALICE], {}), Create(ALICE, 100, HOME, "a", 0)]
  }

  lemma ServedTwo()
    ensures Served(Setup()) == Database([NewRecord(100, "a", HOME, 0)], map[HOME := 1],
                                        map[HOME := ALICE, WORK := ALICE], {})
  {
    assert Setup()[..1] == [Setup()[0]] && [Setup()[0]][..0] == [];
    var db0 := Database([], map[], map[HOME := ALICE, WORK := ALICE], {});
    assert Served([Setup()[0]]) == db0;
    assert Find(db0.records, 100).None?;
    assert Bump(db0.versions, {HOME}) == map[HOME := 1];
    assert [] + [NewRecord(100, "a", HOME, 0)] == [NewRecord(100, "a", HOME, 0)];
  }

  lemma PushFirst(db: Database, user: Guid, c: PushChange)
    ensures PushAll(db, user, [c]) == Push1(db, user, Batch(db.records, [], [], {}, []), c)
  {
    assert [c][..0] == [];
  }

  // A change that names another repository of the same user leaves a record ahead of its counter.
  lemma ForeignNamesBreakTheBound(c: PushChange)
    requires c.id == 100 && c.repo == WORK && c.expected == 1
    ensures !Bounded(Handle(Served(Setup()), Push(ALICE, [c])).db)
  {
    ServedTwo();
    var db := Served(Setup());
    PushFirst(db, ALICE, c);
    assert Find(db.records, 100) == Some(0);
    assert HasRepoAccess(db, WORK, ALICE);
    var after := Handle(db, Push(ALICE, [c])).db;
    assert after.records[0].version == 2 && GlobalVersion(after.versions, HOME) == 1;
  }

  // So does a batch that changes the same record twice: the counter moves once.
  lemma RepeatedIdsBreakTheBound(c1: PushChange, c2: PushChange)
    requires c1.id == c2.id == 100 && c1.repo == c2.repo == HOME && c1.expected == 1 && c2.expected == 2
    ensures !Bounded(Handle(Served(Setup()), Push(ALICE, [c1, c2])).db)
  {
    hide PushAll, Bump;
    ServedTwo();
    var db := Served(Setup());
    TwoUpdates(db, c1, c2);
    var after := Handle(db, Push(ALICE, [c1, c2])).db;
    BumpedBy(db.versions, {HOME});
    assert after.records[0].version == 3 && GlobalVersion(after.versions, HOME) == 2;
  }

  lemma TwoUpdates(db: Database, c1: PushChange, c2: PushChange)
    requires HasRepoAccess(db, HOME, ALICE) && |db.records| == 1 && db.records[0].id == 100
             && db.records[0].version == 1
    requires c1.id == c2.id == 100 && c1.repo == c2.repo == HOME && c1.expected == 1 && c2.expected == 2
    ensures var b := PushAll(db, ALICE, [c1, c2]);
            |b.records| == 1 && b.records[0].version == 3 && b.records[0].repo == db.records[0].repo
                && b.repos == {HOME}
  {
    PushFirst(db, ALICE, c1);
    var b := PushAll(db, ALICE, [c1]);
    assert [c1, c2][..1] == [c1];
    assert Find(db.records, 100) == Some(0) && Find(b.records, 100) == Some(0);
  }

  // ---------- pulling ----------

  ghost predicate ByVersion(rows: seq<OtpRecord>) {
    forall i, j :: 0 <= i <= j < |rows| ==> rows[i].version <= rows[j].version
  }

  lemma {:induction false} InsertKeepsOrder(sorted: seq<OtpRecord>, r: OtpRecord)
    requires ByVersion(sorted)
    ensures var all := InsertByVersion(sorted, r);
            && |all| == |sorted| + 1 && ByVersion(all)
            && (sorted == [] || sorted[|sorted| - 1].version <= r.version || all[|sorted|] == sorted[|sorted| - 1])
            && (all[|sorted|] == r || (sorted != [] && all[|sorted|] == sorted[|sorted| - 1]))
  {
    if sorted != [] && sorted[|sorted| - 1].version > r.version {
      InsertKeepsOrder(sorted[..|sorted| - 1], r);
    }
  }

  lemma {:induction false} InsertKeepsAll(sorted: seq<OtpRecord>, r: OtpRecord)
    ensures multiset(InsertByVersion(sorted, r)) == multiset(sorted) + multiset{r}
  {
    if sorted != [] && sorted[|sorted| - 1].version > r.version {
      var n := |sorted| - 1;
      InsertKeepsAll(sorted[..n], r);
      assert sorted == sorted[..n] + [sorted[n]];
    }
  }

  // A pull gives the records in the order of their versions.
  lemma {:induction false} PullInOrder(rows: seq<OtpRecord>, repo: Guid, since: int)
    ensures ByVersion(Newer(rows, repo, since))
  {
    if rows != [] {
      PullInOrder(rows[..|rows| - 1], repo, since);
      InsertKeepsOrder(Newer(rows[..|rows| - 1], repo, since), rows[|rows| - 1]);
    }
  }

  // It gives exactly the records of the repository whose own version is above the given one,
  // each as often as it is stored.
  lemma {:induction false} PullIsFilter(rows: seq<OtpRecord>, repo: Guid, since: int, r: OtpRecord)
    ensures multiset(Newer(rows, repo, since))[r] ==
            if r.repo == repo && r.version > since then multiset(rows)[r] else 0
  {
    if rows != [] {
      var n := |rows| - 1;
      hide InsertByVersion;
      PullIsFilter(rows[..n], repo, since, r);
      CountLast(rows, r);
      CountInserted(Newer(rows[..n], repo, since), rows[n], r);
    }
  }

  lemma CountLast(rows: seq<OtpRecord>, r: OtpRecord)
    requires rows != []
    ensures multiset(rows)[r] == multiset(rows[..|rows| - 1])[r] + if rows[|rows| - 1] == r then 1 else 0
  {
    assert rows == rows[..|rows| - 1] + [rows[|rows| - 1]];
  }

  lemma CountInserted(sorted: seq<OtpRecord>, last: OtpRecord, r: OtpRecord)
    ensures multiset(InsertByVersion(sorted, last))[r] == multiset(sorted)[r] + if last == r then 1 else 0
  {
    InsertKeepsAll(sorted, last);
  }

  // A first pull misses nothing: in every run each stored version is at least 1.
  lemma FirstPullIsComplete(qs: seq<Request>, repo: Guid, i: nat)
    requires i < |Served(qs).records| && Served(qs).records[i].repo == repo
    ensures Served(qs).records[i] in Newer(Served(qs).records, repo, 0)
  {
    RunsAreSequential(qs);
    var rows := Served(qs).records;
    PullIsFilter(rows, repo, 0, rows[i]);
    assert multiset(rows)[rows[i]] > 0 by { assert rows[i] in multiset(rows); }
    assert multiset(Newer(rows, repo, 0))[rows[i]] > 0;
  }

  // ---------- what a later pull sees ----------

  lemma InPull(rows: seq<OtpRecord>, repo: Guid, since: int, r: OtpRecord)
    requires r in rows
    ensures r in Newer(rows, repo, since) <==> r.repo == repo && r.version > since
  {
    PullIsFilter(rows, repo, since, r);
    assert r in multiset(rows) && multiset(rows)[r] > 0;
    assert r in Newer(rows, repo, since) <==> multiset(Newer(rows, repo, since))[r] > 0;
  }

  // An accepted write is seen by a pull from the server version before it exactly when the record's
  // version before it, 0 for a new record, was at least that server version.
  lemma WriteIsSeenIff(db: Database, q: Request, r: OtpRecord)
    requires UniqueIds(db.records) && (q.Create? || q.Update? || q.Delete?) && Handle(db, q).response.Ok?
    requires r in Handle(db, q).db.records && r.id == q.id
    ensures var since := GlobalVersion(db.versions, r.repo);
            r in Newer(Handle(db, q).db.records, r.repo, since) <==> VersionOf(db.records, q.id) >= since
  {
    var after := Handle(db, q).db;
    InPull(after.records, r.repo, GlobalVersion(db.versions, r.repo), r);
    assert r.version == VersionOf(db.records, q.id) + 1 by {
      var i :| 0 <= i < |after.records| && after.records[i] == r;
      if q.Create? {
        assert i == |db.records|;
      } else {
        AcceptedChangeIsLocal(db, q);
      }
    }
  }

  // The accepted writes of the requests after the first ones.
  function LogSince(qs: seq<Request>, more: seq<Request>): seq<Write> {
    if more == [] then []
    else
      var n := |more| - 1;
      LogSince(qs, more[..n]) + Handle(Served(qs + more[..n]), more[n]).log
  }

  lemma {:induction false} LogSplits(qs: seq<Request>, more: seq<Request>)
    ensures Log(qs + more) == Log(qs) + LogSince(qs, more)
  {
    hide Handle, Served, Log;
    if more == [] {
      assert qs + more == qs && Log(qs) + [] == Log(qs);
    } else {
      var n := |more| - 1;
      LogSplits(qs, more[..n]);
      assert qs + more == qs + more[..n] + [more[n]];
      OneMoreServed(qs + more[..n], more[n]);
      var last := Handle(Served(qs + more[..n]), more[n]).log;
      assert Log(qs) + LogSince(qs, more[..n]) + last == Log(qs) + (LogSince(qs, more[..n]) + last);
    }
  }

  // Over any run: a record is in a pull from the server version of an earlier pull exactly when its
  // version at that time and the number of accepted writes to it since then are together more than
  // that server version.
  lemma LaterPullIsExact(qs: seq<Request>, more: seq<Request>, i: nat)
    requires i < |Served(qs + more).records|
    ensures var rows := Served(qs + more).records; var r := rows[i];
            var since := GlobalVersion(Served(qs).versions, r.repo);
            r in Newer(rows, r.repo, since) <==>
            VersionOf(Served(qs).records, r.id) + Writes(LogSince(qs, more), r.id) > since
  {
    var rows := Served(qs + more).records;
    RunsAreSequential(qs);
    RunsAreSequential(qs + more);
    LogSplits(qs, more);
    WritesConcat(Log(qs), LogSince(qs, more), rows[i].id);
    VersionIsWrites(Served(qs).records, Log(qs), rows[i].id);
    InPull(rows, rows[i].repo, GlobalVersion(Served(qs).versions, rows[i].repo), rows[i]);
  }

  // The records of a repository that have been written since then.
  predicate WrittenSince(qs: seq<Request>, more: seq<Request>, repo: Guid, r: OtpRecord) {
    r in Served(qs + more).records && r.repo == repo && Writes(LogSince(qs, more), r.id) > 0
  }

  // So the later pull misses nothing that was written since exactly when every record written since
  // is far enough ahead. In particular it misses all that were created since and written no more
  // often than the server version says.
  lemma LaterPullIsCompleteIff(qs: seq<Request>, more: seq<Request>, repo: Guid)
    ensures var rows, since := Served(qs + more).records, GlobalVersion(Served(qs).versions, repo);
            (forall r :: WrittenSince(qs, more, repo, r) ==> r in Newer(rows, repo, since)) <==>
            (forall r :: WrittenSince(qs, more, repo, r) ==>
               VersionOf(Served(qs).records, r.id) + Writes(LogSince(qs, more), r.id) > since)
  {
    hide Newer, VersionOf, LogSince, Served;
    var rows := Served(qs + more).records;
    forall r | WrittenSince(qs, more, repo, r)
      ensures r in Newer(rows, repo, GlobalVersion(Served(qs).versions, repo)) <==>
              VersionOf(Served(qs).records, r.id) + Writes(LogSince(qs, more), r.id)
                  > GlobalVersion(Served(qs).versions, repo)
    {
      var i :| 0 <= i < |rows| && rows[i] == r;
      LaterPullIsExact(qs, more, i);
    }
  }

  // A pull can miss what was created since: a new record starts at version 1.
  lemma LaterPullsMissNewRecords(db: Database, user: Guid, id: Guid, repo: Guid, blob: string, time: int)
    requires UniqueIds(db.records) && Find(db.records, id).None? && HasRepoAccess(db, repo, user)
    requires GlobalVersion(db.versions, repo) >= 1
    ensures var after := Handle(db, Create(user, id, repo, blob, time)).db;
            && NewRecord(id, blob, repo, time) in after.records
            && NewRecord(id, blob, repo, time) !in Newer(after.records, repo, GlobalVersion(db.versions, repo))
  {
    var after, r := Handle(db, Create(user, id, repo, blob, time)).db, NewRecord(id, blob, repo, time);
    assert after.records[|db.records|] == r;
    WriteIsSeenIff(db, Create(user, id, repo, blob, time), r);
  }

  // ---------- the server as an object ----------

  class Server {
    var records: seq<OtpRecord>
    var versions: map<Guid, nat>
    var owners: map<Guid, Guid>
    var members: set<(Guid, Guid)>

    function View(): Database
      reads this
    {
      Database(records, versions, owners, members)
    }

    constructor ()
      ensures View() == EMPTY_DB
    {
      records, versions, owners, members := [], map[], map[], {};
    }

    method FindRecord(id: Guid) returns (at: Option<nat>)
      ensures at == Find(records, id)
    {
      var i := |records|;
      assert records[..i] == records;
      while i > 0
        invariant 0 <= i <= |records| && Find(records, id) == Find(records[..i], id)
      {
        if records[i - 1].id == id {
          return Some(i - 1);
        }
        assert records[..i][..i - 1] == records[..i - 1];
        i := i - 1;
      }
      at := None;
    }

    method IncrementRepoVersion(repo: Guid)
      modifies `versions
      ensures versions == Bump(old(versions), {repo})
    {
      if repo in versions {
        versions := versions[repo := versions[repo] + 1];
      } else {
        versions := versions[repo := 1];
      }
    }

    method CreateRecord(user: Guid, id: Guid, repo: Guid, blob: string, time: int) returns (r: Response)
      modifies this
      ensures (View(), r) == (Handle(old(View()), Create(user, id, repo, blob, time)).db,
                              Handle(old(View()), Create(user, id, repo, blob, time)).response)
    {
      if !HasRepoAccess(View(), repo, user) {
        return Forbidden;
      }
      var at := FindRecord(id);
      if at.Some? {
        return Failed; // the key is taken, and nothing is saved
      }
      records := records + [NewRecord(id, blob, repo, time)];
      IncrementRepoVersion(repo);
      r := Ok(1);
    }

    method UpdateRecord(user: Guid, id: Guid, blob: string, expected: int, time: int) returns (r: Response)
      modifies this
      ensures (View(), r) == (Handle(old(View()), Update(user, id, blob, expected, time)).db,
                              Handle(old(View()), Update(user, id, blob, expected, time)).response)
    {
      var at := FindRecord(id);
      if at.None? {
        return NotFound;
      }
      var record := records[at.value];
      if !HasRepoAccess(View(), record.repo, user) {
        return Forbidden;
      }
      if expected != record.version {
        return Stale(record.version);
      }
      record := record.(blob := blob, version := record.version + 1, updated := time);
      records := records[at.value := record];
      IncrementRepoVersion(record.repo);
      r := Ok(record.version);
    }

    method DeleteRecord(user: Guid, id: Guid, expected: int, time: int) returns (r: Response)
      modifies this
      ensures (View(), r) == (Handle(old(View()), Delete(user, id, expected, time)).db,
                              Handle(old(View()), Delete(user, id, expected, time)).response)
    {
      var at := FindRecord(id);
      if at.None? {
        return NotFound;
      }
      var record := records[at.value];
      if !HasRepoAccess(View(), record.repo, user) {
        return Forbidden;
      }
      if expected != record.version {
        return Stale(record.version);
      }
      record := record.(deleted := Some(time), version := record.version + 1);
      records := records[at.value := record];
      IncrementRepoVersion(record.repo);
      r := Ok(record.version);
    }

    // A batch sees its own earlier changes; each repository it wrote to is bumped once, at the end.
    method PushChanges(user: Guid, changes: seq<PushChange>) returns (r: Response)
      modifies this
      ensures (View(), r) ==
              (Handle(old(View()), Push(user, changes)).db, Handle(old(View()), Push(user, changes)).response)
    {
      var accepted: seq<Accepted>, conflicts: seq<Conflict> := [], [];
      var reposToVersion: set<Guid> := {};
      var i := 0;
      ghost var b := PushAll(View(), user, []);
      assert changes[..0] == [];
      while i < |changes|
        invariant i <= |changes| && b == PushAll(old(View()), user, changes[..i])
        invariant records == b.records && accepted == b.accepted && conflicts == b.conflicts
                  && reposToVersion == b.repos
        invariant versions == old(versions) && owners == old(owners) && members == old(members)
      {
        var change := changes[i];
        assert changes[..i + 1][..i] == changes[..i];
        b := Push1(old(View()), user, b, change);
        if HasRepoAccess(View(), change.repo, user) {
          var at := FindRecord(change.id);
          if at.None? {
            records := records + [NewRecord(change.id, change.blob, change.repo, change.time)];
            accepted := accepted + [Accepted(change.id, 1)];
            reposToVersion := reposToVersion + {change.repo};
          } else if change.expected == records[at.value].version {
            var record := records[at.value];
            record := record.(blob := change.blob, version := record.version + 1, updated := change.time);
            records := records[at.value := record];
            accepted := accepted + [Accepted(change.id, record.version)];
            reposToVersion := reposToVersion + {change.repo};
          } else {
            conflicts := conflicts + [Conflict(change.id, records[at.value].version)];
          }
        }
        i := i + 1;
      }
      assert changes[..i] == changes;
      IncrementAll(reposToVersion);
      r := Pushed(accepted, conflicts);
    }

    method IncrementAll(repos: set<Guid>)
      modifies `versions
      ensures versions == Bump(old(versions), repos)
    {
      hide Bump;
      var left := repos;
      ghost var done: set<Guid> := {};
      BumpNone(versions);
      while left != {}
        invariant done + left == repos && done !! left
        invariant versions == Bump(old(versions), done)
        decreases |left|
      {
        var repo :| repo in left;
        BumpMore(old(versions), done, repo);
        IncrementRepoVersion(repo);
        left, done := left - {repo}, done + {repo};
      }
      assert done == repos;
    }

    method PullRecords(user: Guid, repo: Guid, since: int) returns (r: Response)
      ensures r == Handle(View(), Pull(user, repo, since)).response
    {
      if !HasRepoAccess(View(), repo, user) {
        return Forbidden;
      }
      var items := [];
      var i := 0;
      assert records[..0] == [];
      while i < |records|
        invariant i <= |records| && items == Newer(records[..i], repo, since)
      {
        assert records[..i + 1][..i] == records[..i];
        if records[i].repo == repo && records[i].version > since {
          items := InsertByVersion(items, records[i]);
        }
        i := i + 1;
      }
      assert records[..i] == records;
      r := Pulled(items, if repo in versions then versions[repo] else 0);
    }

    method RepoStatus(user: Guid, repo: Guid) returns (r: Response)
      ensures r == Handle(View(), Status(user, repo)).response
    {
      if !HasRepoAccess(View(), repo, user) {
        return Forbidden;
      }
      r := Ok(if repo in versions then versions[repo] else 0);
    }
  }

  lemma BumpNone(versions: map<Guid, nat>)
    ensures Bump(versions, {}) == versions
  {
  }

  lemma BumpMore(versions: map<Guid, nat>, done: set<Guid>, repo: Guid)
    requires repo !in done
    ensures Bump(Bump(versions, done), {repo}) == Bump(versions, done + {repo})
  {
    BumpedBy(versions, done);
  }
}
