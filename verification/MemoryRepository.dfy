/**
 * The versioned store of datasource memories and their candidates (packages/database/src/memory-repository.ts). Every
 * function is one transaction, which a failure rolls back as a whole.
 */
module MemoryRepository {
  import opened Common
  import opened MemoryPolicy

  type MemoryId = nat
  type SourceMessage = nat
  type CandidateId = nat

  datatype Head = Head(datasource: int, version: nat, active: bool, name: string)
  datatype Revision = Revision(content: Content, active: bool, source: Option<SourceMessage>)

  datatype Decision = Pending | Accepted | Rejected
  datatype Candidate = Candidate(
    datasource: int, user: int, generation: nat, source: SourceMessage, target: Option<(MemoryId, nat)>,
    content: Content, version: nat, status: Decision, result: Option<(MemoryId, nat)>)

  datatype Db = Db(
    owners: map<int, int>,
    ids: seq<MemoryId>, // all memories, in any order
    memories: map<MemoryId, Head>,
    revisions: map<(MemoryId, nat), Revision>,
    candidates: map<CandidateId, Candidate>)

  datatype Error =
    | BadContent | NotAccessible | Changed | NameTaken | ReviewRequired | Stopped | TooManyCandidates | BadRequest
    | Aborted

  // ---------- Validation ----------

  function CleanText(s: string, max: nat): Result<string, Error> {
    if Trim(s) == "" || |s| > max then Failure(BadContent) else Success(Trim(s))
  }

  function Validate(c: Content): Result<Content, Error> {
    var name :- CleanText(c.name, 200);
    var description :- CleanText(c.description, 4000);
    Success(Content(name, description))
  }

  // ---------- save ----------

  predicate Writable(db: Db, ds: int, user: int) {
    ds in db.owners && db.owners[ds] == user
  }

  // The unique index on (datasource_id, normalized_name) of active memories.
  predicate Taken(db: Db, ds: int, name: string, but: Option<MemoryId>) {
    exists m :: m in db.memories && Some(m) != but && db.memories[m].active && db.memories[m].datasource == ds
        && db.memories[m].name == name
  }

  function Write(db: Db, m: MemoryId, head: Head, r: Revision): Db {
    db.(ids := if m in db.memories then db.ids else db.ids + [m],
        memories := db.memories[m := head],
        revisions := db.revisions[(m, head.version) := r])
  }

  // Without a target a new memory is made under `id`, which is drawn at random.
  function Save(t: Text, db: Db, user: int, ds: int, content: Content, target: Option<(MemoryId, nat)>,
                source: Option<SourceMessage>, deleted: bool, id: MemoryId): (Db, Result<(MemoryId, nat), Error>)
  {
    if !Writable(db, ds, user) then (db, Failure(NotAccessible))
    else
      var name := NormalizedName(t, content.name);
      var r := Revision(content, !deleted, source);
      if target.Some? then
        var m := target.value.0;
        if m !in db.memories || db.memories[m].datasource != ds then (db, Failure(NotAccessible))
        else if db.memories[m].version != target.value.1 || !db.memories[m].active then (db, Failure(Changed))
        else if !deleted && Taken(db, ds, name, Some(m)) then (db, Failure(NameTaken))
        else
          var version := db.memories[m].version + 1;
          (Write(db, m, Head(ds, version, !deleted, name), r), Success((m, version)))
      else if id in db.memories then (db, Failure(Aborted))
      else if !deleted && Taken(db, ds, name, None) then (db, Failure(NameTaken))
      else (Write(db, id, Head(ds, 1, !deleted, name), r), Success((id, 1)))
  }

  // A refused save changes nothing.
  lemma RefusedSaveChangesNothing(t: Text, db: Db, user: int, ds: int, content: Content,
      target: Option<(MemoryId, nat)>,
                                  source: Option<SourceMessage>, deleted: bool, id: MemoryId)
    ensures var (n, r) := Save(t, db, user, ds, content, target, source, deleted, id); r.Failure? ==> n == db
  {
    hide Taken;
  }

  // ---------- The services ----------

  function Current(db: Db, m: MemoryId): Known
    requires m in db.memories
  {
    var head := db.memories[m];
    var content := if (m, head.version) in db.revisions then db.revisions[(m, head.version)].content
        else Content("", "");
    Known(m, head.active, content)
  }

  function ActiveIn(db: Db, ds: int, ids: seq<MemoryId>): seq<Known> {
    if ids == [] then []
    else
      var rest := ActiveIn(db, ds, ids[1..]);
      var m := ids[0];
      if m in db.memories && db.memories[m].active && db.memories[m].datasource == ds then [Current(db, m)] + rest
          else rest
  }

  datatype Remembered = Already(memories: set<MemoryId>) | Saved(memory: MemoryId)

  function SavedFrom(db: Db, ds: int, source: SourceMessage): (ids: set<MemoryId>)
    ensures forall m :: m in ids ==> exists k :: k in db.revisions && k.0 == m && db.revisions[k].source == Some(source)
  {
    set k | k in db.revisions && db.revisions[k].source == Some(source) && k.0 in db.memories
        && db.memories[k.0].datasource == ds :: k.0
  }

  function Remember(t: Text, db: Db, user: int, ds: int, source: SourceMessage, body: Content, id: MemoryId): (Db,
      Result<Remembered, Error>) {
    var content := Validate(body);
    if content.Failure? then (db, Failure(content.error))
    else if !Writable(db, ds, user) then (db, Failure(NotAccessible))
    else if SavedFrom(db, ds, source) != {} then (db, Success(Already(SavedFrom(db, ds, source))))
    else if Related(t, content.value, ActiveIn(db, ds, db.ids), None) != [] then (db, Failure(ReviewRequired))
    else
      var (n, r) := Save(t, db, user, ds, content.value, None, Some(source), false, id);
      (n, if r.Success? then Success(Saved(r.value.0)) else Failure(r.error))
  }

  function Create(t: Text, db: Db, user: int, ds: int, body: Content, id: MemoryId)
    : (Db, Result<(MemoryId, nat), Error>)
  {
    var content := Validate(body);
    if content.Failure? then (db, Failure(content.error))
        else Save(t, db, user, ds, content.value, None, None, false, id)
  }

  // An update patches the newest content; a deletion keeps it.
  function Update(t: Text, db: Db, user: int, m: MemoryId, expected: nat, name: Option<string>,
      description: Option<string>, deleted: bool)
    : (Db, Result<(MemoryId, nat), Error>)
  {
    if m !in db.memories then (db, Failure(NotAccessible))
    else
      var known := Current(db, m).content;
      var content := if deleted then Success(known) else Validate(Content(name.GetOr(known.name),
          description.GetOr(known.description)));
      if content.Failure? then (db, Failure(content.error))
      else Save(t, db, user, db.memories[m].datasource, content.value, Some((m, expected)), None, deleted, 0)
  }

  function Of(db: Db, generation: nat): (r: set<CandidateId>)
    ensures forall c :: c in r <==> c in db.candidates && db.candidates[c].generation == generation
  {
    set c | c in db.candidates && db.candidates[c].generation == generation
  }

  datatype Proposal = AlreadyProposed | Proposed(candidate: CandidateId)

  // `owned` says whether the generation is the caller's and still being written; it asks about `source`.
  function Propose(db: Db, user: int, ds: int, generation: nat, owned: bool, source: SourceMessage, body: Content,
                   target: Option<(MemoryId, nat)>, id: CandidateId): (Db, Result<Proposal, Error>)
  {
    var content := Validate(body);
    if content.Failure? then (db, Failure(content.error))
    else if !owned then (db, Failure(Stopped))
    else if !Writable(db, ds, user) then (db, Failure(NotAccessible))
    else if target.Some? && (target.value.0 !in db.memories || db.memories[target.value.0].datasource != ds
        || !db.memories[target.value.0].active) then
      (db, Failure(NotAccessible))
    else if target.Some? && db.memories[target.value.0].version != target.value.1 then (db, Failure(Changed))
    else if exists c :: c in Of(db, generation) && db.candidates[c].content == content.value
              && db.candidates[c].target == target then
      (db, Success(AlreadyProposed))
    else if |Of(db, generation)| >= 10 then (db, Failure(TooManyCandidates))
    else if id in db.candidates then (db, Failure(Aborted))
    else
      (db.(candidates := db.candidates[id := Candidate(ds, user, generation, source, target, content.value, 1,
          Pending, None)]), Success(Proposed(id)))
  }

  datatype Verdict = Verdict(status: Decision, result: Option<(MemoryId, nat)>)
  datatype Edit = Edit(content: Content, target: Option<(MemoryId, nat)>)

  function Decided(accept: bool): Decision {
    if accept then Accepted else Rejected
  }

  function Close(db: Db, c: CandidateId, accept: bool, result: Option<(MemoryId, nat)>): Db
    requires c in db.candidates
  {
    db.(candidates := db.candidates[c := db.candidates[c].(status := Decided(accept),
        version := db.candidates[c].version + 1, result := result)])
  }

  // `completed` says whether the candidate's generation has completed.
  function Decide(t: Text, db: Db, user: int, c: CandidateId, expected: nat, accept: bool, edit: Option<Edit>,
      completed: bool, id: MemoryId)
    : (Db, Result<Verdict, Error>)
  {
    var edited := if edit.Some? then Validate(edit.value.content) else Success(Content("", ""));
    if edited.Failure? then (db, Failure(edited.error))
    else if edit.Some? && !accept then (db, Failure(BadRequest))
    else if c !in db.candidates || db.candidates[c].user != user || !completed then (db, Failure(NotAccessible))
    else
      var k := db.candidates[c];
      if !Writable(db, k.datasource, user) then (db, Failure(NotAccessible))
      else if k.status == Decided(accept) && expected + 1 == k.version then (db, Success(Verdict(k.status, k.result)))
      else if !k.status.Pending? || k.version != expected then (db, Failure(Changed))
      else if !accept then (Close(db, c, false, None), Success(Verdict(Rejected, None)))
      else
        var content := if edit.Some? then edited else Validate(k.content);
        if content.Failure? then (db, Failure(content.error))
        else
          var target := if edit.Some? && edit.value.target.Some? then edit.value.target else k.target;
          var (n, r) := Save(t, db, user, k.datasource, content.value, target, Some(k.source), false, id);
          if r.Failure? then (db, Failure(r.error))
          else (Close(n, c, true, Some(r.value)), Success(Verdict(Accepted, Some(r.value))))
  }

  // ---------- Runs ----------

  datatype Step =
    | RememberStep(user: int, ds: int, source: SourceMessage, body: Content, id: MemoryId)
    | CreateStep(user: int, ds: int, body: Content, id: MemoryId)
    | UpdateStep(user: int, m: MemoryId, expected: nat, name: Option<string>, description: Option<string>,
        deleted: bool)
    | ProposeStep(user: int, ds: int, generation: nat, owned: bool, source: SourceMessage, body: Content,
        target: Option<(MemoryId, nat)>, cid: CandidateId)
    | DecideStep(user: int, cid: CandidateId, expected: nat, accept: bool, edit: Option<Edit>, completed: bool,
        id: MemoryId)

  function Apply(t: Text, db: Db, s: Step): Db {
    match s
    case RememberStep(u, ds, source, body, id) => Remember(t, db, u, ds, source, body, id).0
    case CreateStep(u, ds, body, id) => Create(t, db, u, ds, body, id).0
    case UpdateStep(u, m, expected, name, description, deleted) =>
        Update(t, db, u, m, expected, name, description, deleted).0
    case ProposeStep(u, ds, g, owned, source, body, target, cid) =>
        Propose(db, u, ds, g, owned, source, body, target, cid).0
    case DecideStep(u, cid, expected, accept, edit, completed, id) =>
        Decide(t, db, u, cid, expected, accept, edit, completed, id).0
  }

  function Run(t: Text, db: Db, steps: seq<Step>): Db {
    if steps == [] then db else Apply(t, Run(t, db, steps[..|steps| - 1]), steps[|steps| - 1])
  }

  function Start(owners: map<int, int>): Db {
    Db(owners, [], map[], map[], map[])
  }
}
