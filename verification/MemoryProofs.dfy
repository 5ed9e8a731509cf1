/**
 * What every run of the memory store keeps: complete and unchangeable revisions, unique names, final deletions, and
 * candidates that are decided once.
 */
module MemoryProofs {
  import opened Common
  import opened MemoryPolicy
  import opened MemoryRepository

  // ---------- The invariant ----------

  ghost predicate RevisionsComplete(db: Db) {
    forall m, v :: (m, v) in db.revisions <==> m in db.memories && 1 <= v <= db.memories[m].version
  }

  // The newest revision says what the head says; only it can be a deletion.
  ghost predicate HeadsFollow(t: Text, db: Db) {
    && (forall m :: m in db.memories ==>
         var head := db.memories[m];
         && head.version >= 1 && (m, head.version) in db.revisions
         && db.revisions[(m, head.version)].active == head.active
         && NormalizedName(t, db.revisions[(m, head.version)].content.name) == head.name)
    && (forall m, v :: (m, v) in db.revisions && m in db.memories && v < db.memories[m].version ==>
          db.revisions[(m, v)].active)
  }

  predicate Rivals(a: Head, b: Head) {
    a.active && b.active && a.datasource == b.datasource && a.name == b.name
  }

  ghost predicate NamesUnique(db: Db) {
    forall m, k :: m in db.memories && k in db.memories && Rivals(db.memories[m], db.memories[k]) ==> m == k
  }

  ghost predicate AllListed(db: Db) {
    forall m :: m in db.ids <==> m in db.memories
  }

  ghost predicate CandidatesSound(db: Db) {
    forall c :: c in db.candidates ==>
      var k := db.candidates[c];
      && k.version == (if k.status.Pending? then 1 else 2)
      && (k.result.Some? <==> k.status.Accepted?)
      && (k.result.Some? ==> k.result.value in db.revisions)
  }

  ghost predicate Inv(t: Text, db: Db) {
    RevisionsComplete(db) && HeadsFollow(t, db) && NamesUnique(db) && AllListed(db) && CandidatesSound(db)
  }

  // ---------- What may change ----------

  ghost predicate Evolves(a: Db, b: Db) {
    && b.owners == a.owners
    && (forall m :: m in a.memories ==>
         && m in b.memories && b.memories[m].datasource == a.memories[m].datasource
         && a.memories[m].version <= b.memories[m].version
         && (!a.memories[m].active ==> b.memories[m] == a.memories[m]))
    && (forall k :: k in a.revisions ==> k in b.revisions && b.revisions[k] == a.revisions[k])
    && (forall c :: c in a.candidates ==>
         && c in b.candidates
         && (!a.candidates[c].status.Pending? ==> b.candidates[c] == a.candidates[c])
         && b.candidates[c] == a.candidates[c].(status := b.candidates[c].status, version := b.candidates[c].version,
             result := b.candidates[c].result))
  }

  lemma EvolvesReflexive(a: Db)
    ensures Evolves(a, a)
  {
  }

  lemma EvolvesTransitive(a: Db, b: Db, c: Db)
    requires Evolves(a, b) && Evolves(b, c)
    ensures Evolves(a, c)
  {
  }

  // ---------- One saved revision ----------

  // A new memory's first revision, or the next revision of a memory that is active.
  ghost predicate Saves(t: Text, a: Db, b: Db, m: MemoryId, head: Head, r: Revision) {
    && b == Write(a, m, head, r)
    && (if m in a.memories then a.memories[m].active && head.version == a.memories[m].version + 1
        && head.datasource == a.memories[m].datasource
        else head.version == 1)
    && head.active == r.active && head.name == NormalizedName(t, r.content.name)
    && (head.active ==> !Taken(a, head.datasource, head.name, Some(m)))
  }

  lemma SaveSaves(t: Text, db: Db, user: int, ds: int, content: Content, target: Option<(MemoryId, nat)>,
      source: Option<SourceMessage>, deleted: bool, id: MemoryId)
    requires Save(t, db, user, ds, content, target, source, deleted, id).1.Success?
    ensures var (n, r) := Save(t, db, user, ds, content, target, source, deleted, id);
            && r.value.0 in n.memories && n.memories[r.value.0].version == r.value.1
            && Saves(t, db, n, r.value.0, n.memories[r.value.0], Revision(content, !deleted, source))
  {
    hide NormalizedName;
  }

  lemma SavesKeepsRevisions(t: Text, a: Db, b: Db, m: MemoryId, head: Head, r: Revision)
    requires Saves(t, a, b, m, head, r) && RevisionsComplete(a) && AllListed(a)
    ensures RevisionsComplete(b) && AllListed(b)
  {
    hide NormalizedName, Taken;
  }

  lemma SavesKeepsHeads(t: Text, a: Db, b: Db, m: MemoryId, head: Head, r: Revision)
    requires Saves(t, a, b, m, head, r) && RevisionsComplete(a) && HeadsFollow(t, a)
    ensures HeadsFollow(t, b)
  {
    hide NormalizedName, Taken;
  }

  lemma SavesKeepsNames(t: Text, a: Db, b: Db, m: MemoryId, head: Head, r: Revision)
    requires Saves(t, a, b, m, head, r) && NamesUnique(a)
    ensures NamesUnique(b)
  {
    hide NormalizedName;
  }

  lemma SavesKeepsCandidates(t: Text, a: Db, b: Db, m: MemoryId, head: Head, r: Revision)
    requires Saves(t, a, b, m, head, r) && CandidatesSound(a)
    ensures CandidatesSound(b)
  {
    hide NormalizedName, Taken;
  }

  lemma SavesEvolves(t: Text, a: Db, b: Db, m: MemoryId, head: Head, r: Revision)
    requires Saves(t, a, b, m, head, r) && RevisionsComplete(a)
    ensures Evolves(a, b)
  {
    hide NormalizedName, Taken;
  }

  lemma SaveKeepsInv(t: Text, db: Db, user: int, ds: int, content: Content, target: Option<(MemoryId, nat)>,
      source: Option<SourceMessage>, deleted: bool, id: MemoryId)
    requires Inv(t, db)
    ensures var (n, r) := Save(t, db, user, ds, content, target, source, deleted, id);
            && Inv(t, n) && Evolves(db, n)
            && (r.Failure? ==> n == db)
            && n.candidates == db.candidates
            && (r.Success? ==> r.value in n.revisions && n.revisions[r.value] == Revision(content, !deleted, source))
  {
    var (n, r) := Save(t, db, user, ds, content, target, source, deleted, id);
    if r.Success? {
      SaveSaves(t, db, user, ds, content, target, source, deleted, id);
      hide Save, RevisionsComplete, HeadsFollow, NamesUnique, AllListed, CandidatesSound, Evolves, NormalizedName,
          Taken;
      var m, head, rev := r.value.0, n.memories[r.value.0], Revision(content, !deleted, source);
      SavesKeepsRevisions(t, db, n, m, head, rev);
      SavesKeepsHeads(t, db, n, m, head, rev);
      SavesKeepsNames(t, db, n, m, head, rev);
      SavesKeepsCandidates(t, db, n, m, head, rev);
      SavesEvolves(t, db, n, m, head, rev);
    } else {
      EvolvesReflexive(db);
    }
  }

  // ---------- Candidates ----------

  lemma CloseKeeps(t: Text, db: Db, c: CandidateId, accept: bool, result: Option<(MemoryId, nat)>)
    requires Inv(t, db) && c in db.candidates && db.candidates[c].status.Pending?
    requires (result.Some? <==> accept) && (result.Some? ==> result.value in db.revisions)
    ensures Inv(t, Close(db, c, accept, result)) && Evolves(db, Close(db, c, accept, result))
  {
    hide NormalizedName;
    var n := Close(db, c, accept, result);
    assert RevisionsComplete(n) && NamesUnique(n) && AllListed(n);
    assert HeadsFollow(t, n);
  }

  // A new candidate, or none.
  lemma ProposeAdds(db: Db, user: int, ds: int, g: nat, owned: bool, source: SourceMessage, body: Content,
      target: Option<(MemoryId, nat)>, id: CandidateId)
    ensures var n := Propose(db, user, ds, g, owned, source, body, target, id).0;
            n == db || (id !in db.candidates && exists content ::
                n == db.(candidates := db.candidates[id :=
                Candidate(ds, user, g, source, target, content, 1, Pending, None)]))
  {
    hide Validate, Of;
  }

  lemma ProposeKeeps(t: Text, db: Db, user: int, ds: int, g: nat, owned: bool, source: SourceMessage, body: Content,
      target: Option<(MemoryId, nat)>, id: CandidateId)
    requires Inv(t, db)
    ensures Inv(t, Propose(db, user, ds, g, owned, source, body, target, id).0)
    ensures Evolves(db, Propose(db, user, ds, g, owned, source, body, target, id).0)
  {
    ProposeAdds(db, user, ds, g, owned, source, body, target, id);
    hide NormalizedName, Propose;
    EvolvesReflexive(db);
    var n := Propose(db, user, ds, g, owned, source, body, target, id).0;
    assert RevisionsComplete(n) && NamesUnique(n) && AllListed(n);
    assert HeadsFollow(t, n);
  }

  lemma DecideKeeps(t: Text, db: Db, user: int, c: CandidateId, expected: nat, accept: bool, edit: Option<Edit>,
      completed: bool, id: MemoryId)
    requires Inv(t, db)
    ensures Inv(t, Decide(t, db, user, c, expected, accept, edit, completed, id).0)
    ensures Evolves(db, Decide(t, db, user, c, expected, accept, edit, completed, id).0)
  {
    hide Inv, Evolves, Save, Validate, Close;
    EvolvesReflexive(db);
    var (n, r) := Decide(t, db, user, c, expected, accept, edit, completed, id);
    if n != db {
      var k := db.candidates[c];
      if !accept {
        CloseKeeps(t, db, c, false, None);
      } else {
        var content := if edit.Some? then Validate(edit.value.content) else Validate(k.content);
        var target := if edit.Some? && edit.value.target.Some? then edit.value.target else k.target;
        var (saved, reply) := Save(t, db, user, k.datasource, content.value, target, Some(k.source), false, id);
        SaveKeepsInv(t, db, user, k.datasource, content.value, target, Some(k.source), false, id);
        CloseKeeps(t, saved, c, true, Some(reply.value));
        EvolvesTransitive(db, saved, Close(saved, c, true, Some(reply.value)));
      }
    }
  }

  // ---------- Runs ----------

  lemma ApplyKeeps(t: Text, db: Db, s: Step)
    requires Inv(t, db)
    ensures Inv(t, Apply(t, db, s)) && Evolves(db, Apply(t, db, s))
  {
    hide Inv, Evolves, Save, Validate, Decide, Propose, Related, ActiveIn, SavedFrom;
    EvolvesReflexive(db);
    match s
    case RememberStep(u, ds, source, body, id) =>
      if Validate(body).Success? {
        SaveKeepsInv(t, db, u, ds, Validate(body).value, None, Some(source), false, id);
      }
    case CreateStep(u, ds, body, id) =>
      if Validate(body).Success? {
        SaveKeepsInv(t, db, u, ds, Validate(body).value, None, None, false, id);
      }
    case UpdateStep(u, m, expected, name, description, deleted) =>
      if m in db.memories {
        var known := Current(db, m).content;
        var content := if deleted then Success(known) else Validate(Content(name.GetOr(known.name),
            description.GetOr(known.description)));
        if content.Success? {
          SaveKeepsInv(t, db, u, db.memories[m].datasource, content.value, Some((m, expected)), None, deleted, 0);
        }
      }
    case ProposeStep(u, ds, g, owned, source, body, target, cid) =>
        ProposeKeeps(t, db, u, ds, g, owned, source, body, target, cid);
    case DecideStep(u, cid, expected, accept, edit, completed, id) =>
        DecideKeeps(t, db, u, cid, expected, accept, edit, completed, id);
  }

  lemma StartInv(t: Text, owners: map<int, int>)
    ensures Inv(t, Start(owners))
  {
  }

  // Revisions are exactly 1..version, the newest agrees with the head, names are unique: after every run.
  lemma {:induction false} RunKeepsInv(t: Text, owners: map<int, int>, steps: seq<Step>)
    ensures Inv(t, Run(t, Start(owners), steps))
  {
    hide Inv, Apply, Evolves;
    if steps == [] {
      StartInv(t, owners);
    } else {
      RunKeepsInv(t, owners, steps[..|steps| - 1]);
      ApplyKeeps(t, Run(t, Start(owners), steps[..|steps| - 1]), steps[|steps| - 1]);
    }
  }

  // From any state of a run to any later one: revisions never change, deletions are final, and a candidate that has
  // been decided stays as it was decided.
  lemma {:induction false} RunEvolves(t: Text, owners: map<int, int>, steps: seq<Step>, i: nat)
    requires i <= |steps|
    ensures Evolves(Run(t, Start(owners), steps[..i]), Run(t, Start(owners), steps))
    decreases |steps|
  {
    hide Inv, Apply, Evolves;
    if i == |steps| {
      assert steps[..i] == steps;
      EvolvesReflexive(Run(t, Start(owners), steps));
    } else {
      var front := steps[..|steps| - 1];
      assert front[..i] == steps[..i];
      RunEvolves(t, owners, front, i);
      RunKeepsInv(t, owners, front);
      ApplyKeeps(t, Run(t, Start(owners), front), steps[|steps| - 1]);
      EvolvesTransitive(Run(t, Start(owners), steps[..i]), Run(t, Start(owners), front), Run(t, Start(owners), steps));
    }
  }

  // ---------- The services ----------

  lemma {:induction false} ActiveInHolds(db: Db, ds: int, ids: seq<MemoryId>, m: MemoryId)
    requires m in ids && m in db.memories && db.memories[m].active && db.memories[m].datasource == ds
    ensures Current(db, m) in ActiveIn(db, ds, ids)
  {
    if ids[0] != m {
      ActiveInHolds(db, ds, ids[1..], m);
    }
  }

  lemma TakenIsRelated(t: Text, db: Db, ds: int, content: Content)
    requires Sane(t) && Inv(t, db) && Taken(db, ds, NormalizedName(t, content.name), None)
    ensures Related(t, content, ActiveIn(db, ds, db.ids), None) != []
  {
    hide NormalizedName, Related, Normalize;
    var m :| m in db.memories && db.memories[m].active && db.memories[m].datasource == ds
        && db.memories[m].name == NormalizedName(t, content.name);
    ActiveInHolds(db, ds, db.ids, m);
    var known := Current(db, m);
    NormalisersAgree(t, content.name);
    NormalisersAgree(t, known.content.name);
    SameNameComesFirst(t, content, ActiveIn(db, ds, db.ids), None, known);
  }

  // The review gate covers the unique index: a memory that it lets through never collides.
  lemma RememberNeverCollides(t: Text, db: Db, user: int, ds: int, source: SourceMessage, body: Content, id: MemoryId)
    requires Sane(t) && Inv(t, db)
    ensures Remember(t, db, user, ds, source, body, id).1 != Failure(NameTaken)
  {
    hide NormalizedName, Related, Inv, Taken, Validate, SavedFrom, ActiveIn;
    ValidateRejectsOnlyContent(body);
    if Validate(body).Success? && Taken(db, ds, NormalizedName(t, Validate(body).value.name), None) {
      TakenIsRelated(t, db, ds, Validate(body).value);
    }
  }

  lemma ValidateRejectsOnlyContent(c: Content)
    ensures Validate(c).Failure? ==> Validate(c).error == BadContent
  {
  }

  // An instruction is saved once: after a success, the same message finds what was saved, in every later state.
  lemma RememberedOnce(t: Text, owners: map<int, int>, steps: seq<Step>, i: nat, user: int, ds: int,
      source: SourceMessage, body: Content, again: Content, id: MemoryId, other: MemoryId)
    requires i < |steps| && steps[i] == RememberStep(user, ds, source, body, id)
    requires Remember(t, Run(t, Start(owners), steps[..i]), user, ds, source, body, id).1.Success?
    ensures var db := Run(t, Start(owners), steps);
            var (n, r) := Remember(t, db, user, ds, source, again, other);
            n == db && (Validate(again).Success? ==> r.Success? && r.value.Already?)
  {
    var before, after := Run(t, Start(owners), steps[..i]), Run(t, Start(owners), steps[..i + 1]);
    var db := Run(t, Start(owners), steps);
    assert steps[..i + 1][..i] == steps[..i];
    RunKeepsInv(t, owners, steps[..i]);
    RunEvolves(t, owners, steps, i + 1);
    RememberLeavesSource(t, before, user, ds, source, body, id);
    hide Run, Inv, SavedFrom, Related, ActiveIn, Save, Validate;
    var m :| m in SavedFrom(after, ds, source);
    SourceStays(after, db, ds, source, m);
  }

  lemma RememberLeavesSource(t: Text, db: Db, user: int, ds: int, source: SourceMessage, body: Content, id: MemoryId)
    requires Inv(t, db) && Remember(t, db, user, ds, source, body, id).1.Success?
    ensures var n := Remember(t, db, user, ds, source, body, id).0;
              SavedFrom(n, ds, source) != {} && Writable(n, ds, user)
  {
    hide NormalizedName, Related, Inv;
    if SavedFrom(db, ds, source) == {} {
      var content := Validate(body).value;
      var (n, r) := Save(t, db, user, ds, content, None, Some(source), false, id);
      assert (id, 1) in n.revisions && n.revisions[(id, 1)].source == Some(source);
      assert (id, 1).0 in SavedFrom(n, ds, source);
    }
  }

  lemma SourceStays(a: Db, b: Db, ds: int, source: SourceMessage, m: MemoryId)
    requires Evolves(a, b) && m in SavedFrom(a, ds, source)
    ensures m in SavedFrom(b, ds, source)
  {
    var k :| k in a.revisions && a.revisions[k].source == Some(source) && k.0 in a.memories
        && a.memories[k.0].datasource == ds && k.0 == m;
    assert k in b.revisions && b.revisions[k] == a.revisions[k];
  }

  // No update is lost: what was written on top of a version stays readable, and nothing else is ever written on top of
  // that version.
  lemma NoLostUpdates(t: Text, owners: map<int, int>, steps: seq<Step>, i: nat, user: int, m: MemoryId, expected: nat,
      name: Option<string>, description: Option<string>, deleted: bool,
                      later: int, newName: Option<string>, newDescription: Option<string>, remove: bool)
    requires i < |steps| && steps[i] == UpdateStep(user, m, expected, name, description, deleted)
    requires Update(t, Run(t, Start(owners), steps[..i]), user, m, expected, name, description, deleted).1.Success?
    ensures var after, db := Run(t, Start(owners), steps[..i + 1]), Run(t, Start(owners), steps);
            && (m, expected + 1) in after.revisions && (m, expected + 1) in db.revisions
            && db.revisions[(m, expected + 1)] == after.revisions[(m, expected + 1)]
            && Update(t, db, later, m, expected, newName, newDescription, remove).1.Failure?
  {
    assert steps[..i + 1][..i] == steps[..i];
    RunEvolves(t, owners, steps, i + 1);
    UpdateSupersedes(t, Run(t, Start(owners), steps[..i]), user, m, expected, name, description, deleted);
    var after, db := Run(t, Start(owners), steps[..i + 1]), Run(t, Start(owners), steps);
    assert after == Update(t, Run(t, Start(owners), steps[..i]), user, m, expected, name, description, deleted).0;
    hide Run, Update;
    assert m in db.memories && after.memories[m].version <= db.memories[m].version;
    StaleIsRefused(t, db, later, m, expected, newName, newDescription, remove);
  }

  lemma StaleIsRefused(t: Text, db: Db, user: int, m: MemoryId, expected: nat, name: Option<string>,
      description: Option<string>, deleted: bool)
    requires m in db.memories && db.memories[m].version > expected
    ensures Update(t, db, user, m, expected, name, description, deleted).1.Failure?
  {
    hide Validate, NormalizedName, Taken;
  }

  lemma UpdateSupersedes(t: Text, db: Db, user: int, m: MemoryId, expected: nat, name: Option<string>,
      description: Option<string>, deleted: bool)
    requires Update(t, db, user, m, expected, name, description, deleted).1.Success?
    ensures var n := Update(t, db, user, m, expected, name, description, deleted).0;
            m in n.memories && n.memories[m].version == expected + 1 && (m, expected + 1) in n.revisions
  {
    hide Validate, NormalizedName, Taken;
  }

  // Deciding again the same way, however much later, gives the same answer and changes nothing.
  lemma DecideReplays(t: Text, owners: map<int, int>, steps: seq<Step>, i: nat, user: int, c: CandidateId,
      expected: nat, accept: bool, edit: Option<Edit>, id: MemoryId, other: MemoryId)
    requires i < |steps| && steps[i] == DecideStep(user, c, expected, accept, edit, true, id)
    requires Decide(t, Run(t, Start(owners), steps[..i]), user, c, expected, accept, edit, true, id).1.Success?
    ensures var first := Decide(t, Run(t, Start(owners), steps[..i]), user, c, expected, accept, edit, true, id).1;
            var db := Run(t, Start(owners), steps);
            Decide(t, db, user, c, expected, accept, edit, true, other) == (db, first)
  {
    var before, after := Run(t, Start(owners), steps[..i]), Run(t, Start(owners), steps[..i + 1]);
    var db := Run(t, Start(owners), steps);
    assert steps[..i + 1][..i] == steps[..i];
    RunKeepsInv(t, owners, steps[..i]);
    RunEvolves(t, owners, steps, i + 1);
    DecideSettles(t, before, user, c, expected, accept, edit, id);
    hide Run, Save, Validate, NormalizedName;
    assert after == Decide(t, before, user, c, expected, accept, edit, true, id).0;
    assert db.candidates[c] == after.candidates[c];
  }

  lemma DecideSettles(t: Text, db: Db, user: int, c: CandidateId, expected: nat, accept: bool, edit: Option<Edit>,
      id: MemoryId)
    requires Inv(t, db) && Decide(t, db, user, c, expected, accept, edit, true, id).1.Success?
    ensures var (n, r) := Decide(t, db, user, c, expected, accept, edit, true, id);
            && c in n.candidates && c in db.candidates && n.owners == db.owners
            && n.candidates[c] == db.candidates[c].(status := Decided(accept), version := expected + 1,
                result := r.value.result)
            && r.value.status == Decided(accept)
            && (edit.Some? ==> accept && Validate(edit.value.content).Success?)
            && db.candidates[c].user == user && Writable(db, db.candidates[c].datasource, user)
  {
    hide Inv, Validate, NormalizedName, Save;
    var k := db.candidates[c];
    if accept && k.status.Pending? {
      var content := if edit.Some? then Validate(edit.value.content) else Validate(k.content);
      var target := if edit.Some? && edit.value.target.Some? then edit.value.target else k.target;
      SaveKeepsInv(t, db, user, k.datasource, content.value, target, Some(k.source), false, id);
    }
  }
}
