/**
 * What each operation of the memory store writes, and when it is accepted (packages/database/src/memory-repository.ts).
 */
module MemoryEffects {
  import opened Common
  import opened MemoryPolicy
  import opened MemoryRepository

  ghost predicate TextKept(given: string, kept: string, max: nat) {
    Trimmed(given, kept) && kept != "" && |given| <= max
  }

  // A name of at most 200 characters and a description of at most 4000, without the white space around them.
  ghost predicate ContentKept(given: Content, kept: Content) {
    TextKept(given.name, kept.name, 200) && TextKept(given.description, kept.description, 4000)
  }

  lemma TextIsKept(given: string, kept: string, max: nat)
    ensures CleanText(given, max) == Success(kept) <==> TextKept(given, kept, max)
  {
    TrimIsExact(given, kept);
    TrimIsExact(given, Trim(given));
    hide Trim, Trimmed;
  }

  lemma ContentIsKept(given: Content, kept: Content)
    ensures Validate(given) == Success(kept) <==> ContentKept(given, kept)
  {
    hide CleanText, TextKept;
    TextIsKept(given.name, kept.name, 200);
    TextIsKept(given.description, kept.description, 4000);
    if Validate(given).Success? {
      TextIsKept(given.name, Validate(given).value.name, 200);
      TextIsKept(given.description, Validate(given).value.description, 4000);
    }
  }

  // ---------- One revision more ----------

  // Another active memory of the datasource has the name.
  predicate NameTakenBy(db: Db, ds: int, name: string, but: Option<MemoryId>, m: MemoryId) {
    && m in db.memories && Some(m) != but && db.memories[m].active && db.memories[m].datasource == ds
    && db.memories[m].name == name
  }

  // Memory m has one more revision, which its head shows; everything else is as before.
  ghost predicate Written(db: Db, n: Db, m: MemoryId, head: Head, r: Revision) {
    && n.owners == db.owners && n.candidates == db.candidates
    && n.memories == db.memories[m := head] && n.revisions == db.revisions[(m, head.version) := r]
    && n.ids == if m in db.memories then db.ids else db.ids + [m]
  }

  // The user owns the datasource, the memory to be replaced is active and in the version that was read, and the name is
  // free.
  ghost predicate MaySave(t: Text, db: Db, user: int, ds: int, content: Content, target: Option<(MemoryId, nat)>,
      deleted: bool, id: MemoryId) {
    var but := if target.Some? then Some(target.value.0) else None;
    && ds in db.owners && db.owners[ds] == user
    && (if target.Some? then
          && target.value.0 in db.memories
          && var head := db.memories[target.value.0];
             head.datasource == ds && head.version == target.value.1 && head.active
        else id !in db.memories)
    && (!deleted ==> NameFree(db, ds, NormalizedName(t, content.name), but))
  }

  ghost predicate NameFree(db: Db, ds: int, name: string, but: Option<MemoryId>) {
    forall m :: !NameTakenBy(db, ds, name, but, m)
  }

  lemma FreeIsNotTaken(db: Db, ds: int, name: string, but: Option<MemoryId>)
    ensures NameFree(db, ds, name, but) <==> !Taken(db, ds, name, but)
  {
    if m :| NameTakenBy(db, ds, name, but, m) {
      assert Taken(db, ds, name, but);
    }
    if Taken(db, ds, name, but) {
      var m :| m in db.memories && Some(m) != but && db.memories[m].active && db.memories[m].datasource == ds
          && db.memories[m].name == name;
      assert NameTakenBy(db, ds, name, but, m);
    }
  }

  // What a save leaves: the next revision of the memory to be replaced, or the first one of a new memory.
  ghost predicate SavedAs(t: Text, db: Db, n: Db, ds: int, content: Content, target: Option<(MemoryId, nat)>,
      source: Option<SourceMessage>, deleted: bool, id: MemoryId, saved: (MemoryId, nat)) {
    && saved == (if target.Some? then (target.value.0, target.value.1 + 1) else (id, 1))
    && Written(db, n, saved.0, Head(ds, saved.1, !deleted, NormalizedName(t, content.name)),
               Revision(content, !deleted, source))
  }

  lemma SaveEffect(t: Text, db: Db, user: int, ds: int, content: Content, target: Option<(MemoryId, nat)>,
      source: Option<SourceMessage>, deleted: bool, id: MemoryId)
    ensures var (n, r) := Save(t, db, user, ds, content, target, source, deleted, id);
            && (r.Success? <==> MaySave(t, db, user, ds, content, target, deleted, id))
            && (r.Failure? ==> n == db)
            && (r.Success? ==> SavedAs(t, db, n, ds, content, target, source, deleted, id, r.value))
  {
    hide NormalizedName, Taken, NameFree;
    FreeIsNotTaken(db, ds, NormalizedName(t, content.name), if target.Some? then Some(target.value.0) else None);
  }

  // ---------- The operations ----------

  lemma CreateEffect(t: Text, db: Db, user: int, ds: int, body: Content, id: MemoryId)
    ensures var (n, r) := Create(t, db, user, ds, body, id);
            && (r.Failure? ==> n == db)
            && (r.Success? <==> exists kept ::
                  ContentKept(body, kept) && MaySave(t, db, user, ds, kept, None, false, id))
            && (r.Success? ==> exists kept ::
                  ContentKept(body, kept) && SavedAs(t, db, n, ds, kept, None, None, false, id, r.value))
  {
    hide ContentKept, Validate, Save, MaySave, SavedAs;
    forall kept ensures Validate(body) == Success(kept) <==> ContentKept(body, kept) {
      ContentIsKept(body, kept);
    }
    if Validate(body).Success? {
      SaveEffect(t, db, user, ds, Validate(body).value, None, None, false, id);
    }
  }

  // The newest content of a memory.
  function Newest(db: Db, m: MemoryId): Content
    requires m in db.memories
  {
    var v := db.memories[m].version;
    if (m, v) in db.revisions then db.revisions[(m, v)].content else Content("", "")
  }

  // A patch keeps what it does not name, and a deletion keeps everything.
  ghost predicate PatchKept(known: Content, name: Option<string>, description: Option<string>, deleted: bool,
      kept: Content) {
    if deleted then kept == known
    else ContentKept(Content(if name.Some? then name.value else known.name,
                         if description.Some? then description.value else known.description), kept)
  }

  lemma UpdateEffect(t: Text, db: Db, user: int, m: MemoryId, expected: nat, name: Option<string>,
      description: Option<string>, deleted: bool)
    ensures var (n, r) := Update(t, db, user, m, expected, name, description, deleted);
            && (r.Failure? ==> n == db)
            && (r.Success? <==> m in db.memories && exists kept ::
                  && PatchKept(Newest(db, m), name, description, deleted, kept)
                  && MaySave(t, db, user, db.memories[m].datasource, kept, Some((m, expected)), deleted, 0))
            && (r.Success? ==> m in db.memories && exists kept ::
                  && PatchKept(Newest(db, m), name, description, deleted, kept)
                  && SavedAs(t, db, n, db.memories[m].datasource, kept, Some((m, expected)), None, deleted, 0, r.value))
  {
    if m in db.memories {
      var known := Newest(db, m);
      var body := Content(name.GetOr(known.name), description.GetOr(known.description));
      forall kept
        ensures (if deleted then kept == known else Validate(body) == Success(kept)) <==>
                PatchKept(known, name, description, deleted, kept)
      {
        ContentIsKept(body, kept);
      }
      hide PatchKept, Validate, Save, MaySave, SavedAs;
      var content := if deleted then Success(known) else Validate(body);
      if content.Success? {
        SaveEffect(t, db, user, db.memories[m].datasource, content.value, Some((m, expected)), None, deleted, 0);
      }
    }
  }

  // The memories that a source message has been saved as before.
  predicate SavedBefore(db: Db, ds: int, source: SourceMessage, m: MemoryId, v: nat) {
    && (m, v) in db.revisions && db.revisions[(m, v)].source == Some(source)
    && m in db.memories && db.memories[m].datasource == ds
  }

  lemma SavedFromIsExact(db: Db, ds: int, source: SourceMessage, m: MemoryId)
    ensures m in SavedFrom(db, ds, source) <==> exists v :: SavedBefore(db, ds, source, m, v)
  {
    if m in SavedFrom(db, ds, source) {
      var k :| k in db.revisions && db.revisions[k].source == Some(source) && k.0 in db.memories
          && db.memories[k.0].datasource == ds && k.0 == m;
      assert SavedBefore(db, ds, source, m, k.1);
    }
  }

  // Nothing has been saved from the source message yet.
  ghost predicate NotSavedBefore(db: Db, ds: int, source: SourceMessage) {
    forall m, v :: !SavedBefore(db, ds, source, m, v)
  }

  lemma NothingFound(db: Db, ds: int, source: SourceMessage)
    ensures SavedFrom(db, ds, source) == {} <==> NotSavedBefore(db, ds, source)
  {
    hide SavedFrom, SavedBefore;
    forall m ensures m in SavedFrom(db, ds, source) <==> exists v :: SavedBefore(db, ds, source, m, v) {
      SavedFromIsExact(db, ds, source, m);
    }
    forall m, v | SavedBefore(db, ds, source, m, v) ensures m in SavedFrom(db, ds, source) {
    }
    if SavedFrom(db, ds, source) != {} {
      var m :| m in SavedFrom(db, ds, source);
      var v :| SavedBefore(db, ds, source, m, v);
    }
  }

  // The active memories of a datasource, each with its newest content.
  predicate ActiveAs(db: Db, ds: int, ids: seq<MemoryId>, k: Known) {
    && k.id in ids && k.id in db.memories && db.memories[k.id].active && db.memories[k.id].datasource == ds
    && k == Known(k.id, true, Newest(db, k.id))
  }

  lemma {:induction false} ActiveIsExact(db: Db, ds: int, ids: seq<MemoryId>, k: Known)
    ensures k in ActiveIn(db, ds, ids) <==> ActiveAs(db, ds, ids, k)
  {
    if ids != [] {
      ActiveIsExact(db, ds, ids[1..], k);
      assert k.id in ids <==> k.id == ids[0] || k.id in ids[1..];
    }
  }

  // A message that was saved before finds its memories again. Otherwise its content is saved, unless an active memory
  // is related to it.
  ghost predicate RememberedAs(t: Text, db: Db, n: Db, user: int, ds: int, source: SourceMessage, kept: Content,
      id: MemoryId, r: Result<Remembered, Error>) {
    if !Writable(db, ds, user) then r.Failure?
    else if !NotSavedBefore(db, ds, source) then
      && n == db && r.Success? && r.value.Already?
      && forall m :: m in r.value.memories <==> exists v :: SavedBefore(db, ds, source, m, v)
    else if Related(t, kept, ActiveIn(db, ds, db.ids), None) != [] then r.Failure?
    else if MaySave(t, db, user, ds, kept, None, false, id) then
      && r == Success(Remembered.Saved(id))
      && SavedAs(t, db, n, ds, kept, None, Some(source), false, id, (id, 1))
    else r.Failure?
  }

  lemma RememberEffect(t: Text, db: Db, user: int, ds: int, source: SourceMessage, body: Content, id: MemoryId)
    ensures var (n, r) := Remember(t, db, user, ds, source, body, id);
            && (r.Failure? ==> n == db)
            && (r.Success? ==> exists kept :: ContentKept(body, kept))
            && forall kept :: ContentKept(body, kept) ==> RememberedAs(t, db, n, user, ds, source, kept, id, r)
  {
    forall m ensures m in SavedFrom(db, ds, source) <==> exists v :: SavedBefore(db, ds, source, m, v) {
      SavedFromIsExact(db, ds, source, m);
    }
    NothingFound(db, ds, source);
    hide ContentKept, Validate, Save, MaySave, SavedAs, SavedFrom, SavedBefore, NotSavedBefore, Related, ActiveIn;
    forall kept ensures Validate(body) == Success(kept) <==> ContentKept(body, kept) {
      ContentIsKept(body, kept);
    }
    if Validate(body).Success? {
      SaveEffect(t, db, user, ds, Validate(body).value, None, Some(source), false, id);
      SavedIsNew(t, db, Save(t, db, user, ds, Validate(body).value, None, Some(source), false, id).0, ds,
                 Validate(body).value, source, id);
    }
  }

  lemma SavedIsNew(t: Text, db: Db, n: Db, ds: int, content: Content, source: SourceMessage, id: MemoryId)
    ensures forall saved :: SavedAs(t, db, n, ds, content, None, Some(source), false, id, saved) ==> saved == (id, 1)
  {
    hide Written;
  }

  // ---------- Candidates ----------

  // A memory that a candidate wants to replace belongs to the datasource, is active and is in the version read.
  ghost predicate TargetStands(db: Db, ds: int, target: Option<(MemoryId, nat)>) {
    target.Some? ==>
      && target.value.0 in db.memories
      && db.memories[target.value.0].datasource == ds
      && db.memories[target.value.0].active
      && db.memories[target.value.0].version == target.value.1
  }

  ghost predicate ProposedBefore(db: Db, generation: nat, content: Content, target: Option<(MemoryId, nat)>,
      c: CandidateId) {
    && c in db.candidates && db.candidates[c].generation == generation
    && db.candidates[c].content == content && db.candidates[c].target == target
  }

  // A new candidate waits for its decision; nothing else changes. A generation proposes each once, and at most ten.
  ghost predicate ProposedAs(db: Db, n: Db, user: int, ds: int, generation: nat, owned: bool, source: SourceMessage,
      kept: Content, target: Option<(MemoryId, nat)>, id: CandidateId, r: Result<Proposal, Error>) {
    if !owned || !Writable(db, ds, user) || !TargetStands(db, ds, target) then r.Failure?
    else if exists c :: ProposedBefore(db, generation, kept, target, c) then n == db && r == Success(AlreadyProposed)
    else if |Of(db, generation)| >= 10 || id in db.candidates then r.Failure?
    else
      && r == Success(Proposed(id)) && n.owners == db.owners && n.ids == db.ids && n.memories == db.memories
      && n.revisions == db.revisions
      && n.candidates
          == db.candidates[id := Candidate(ds, user, generation, source, target, kept, 1, Pending, None)]
  }

  lemma AskedBefore(db: Db, generation: nat, kept: Content, target: Option<(MemoryId, nat)>)
    ensures (exists c :: c in Of(db, generation) && db.candidates[c].content == kept
                && db.candidates[c].target == target)
            <==> exists c :: ProposedBefore(db, generation, kept, target, c)
  {
    if c :| c in Of(db, generation) && db.candidates[c].content == kept && db.candidates[c].target == target {
      assert ProposedBefore(db, generation, kept, target, c);
    }
    if c :| ProposedBefore(db, generation, kept, target, c) {
      assert c in Of(db, generation);
    }
  }

  lemma ProposeKept(db: Db, user: int, ds: int, generation: nat, owned: bool, source: SourceMessage, body: Content,
      kept: Content, target: Option<(MemoryId, nat)>, id: CandidateId)
    requires Validate(body) == Success(kept)
    ensures var (n, r) := Propose(db, user, ds, generation, owned, source, body, target, id);
            ProposedAs(db, n, user, ds, generation, owned, source, kept, target, id, r) && (r.Failure? ==> n == db)
  {
    AskedBefore(db, generation, kept, target);
    hide Validate, ProposedBefore, Of;
  }

  lemma ProposeEffect(db: Db, user: int, ds: int, generation: nat, owned: bool, source: SourceMessage, body: Content,
      target: Option<(MemoryId, nat)>, id: CandidateId)
    ensures var (n, r) := Propose(db, user, ds, generation, owned, source, body, target, id);
            && (r.Failure? ==> n == db)
            && (r.Success? ==> exists kept :: ContentKept(body, kept))
            && forall kept :: ContentKept(body, kept) ==>
                 ProposedAs(db, n, user, ds, generation, owned, source, kept, target, id, r)
  {
    hide ContentKept, Validate, ProposedAs;
    forall kept ensures Validate(body) == Success(kept) <==> ContentKept(body, kept) {
      ContentIsKept(body, kept);
    }
    if Validate(body).Success? {
      ProposeKept(db, user, ds, generation, owned, source, body, Validate(body).value, target, id);
    }
  }

  // Only the candidate itself: its decision, one version more, and what it became.
  ghost predicate ClosedAs(db: Db, n: Db, c: CandidateId, status: Decision, result: Option<(MemoryId, nat)>)
    requires c in db.candidates
  {
    var k := db.candidates[c];
    && n.owners == db.owners && n.ids == db.ids && n.memories == db.memories && n.revisions == db.revisions
    && n.candidates
        == db.candidates[c := Candidate(k.datasource, k.user, k.generation, k.source, k.target, k.content,
                                        k.version + 1, status, result)]
  }

  // What an acceptance saves: the edit if there is one, otherwise the candidate; the target likewise.
  ghost predicate AcceptedAs(t: Text, db: Db, n: Db, user: int, c: CandidateId, kept: Content, edit: Option<Edit>,
      id: MemoryId, r: Result<Verdict, Error>)
    requires c in db.candidates
  {
    var k := db.candidates[c];
    var target := if edit.Some? && edit.value.target.Some? then edit.value.target else k.target;
    if MaySave(t, db, user, k.datasource, kept, target, false, id) then
      exists between: Db, saved: (MemoryId, nat) ::
        && SavedAs(t, db, between, k.datasource, kept, target, Some(k.source), false, id, saved)
        && c in between.candidates && ClosedAs(between, n, c, Accepted, Some(saved))
        && r == Success(Verdict(Accepted, Some(saved)))
    else r.Failure?
  }

  // Only the owner of the completed generation and of the datasource decides. The same decision again finds the old one
  // and writes nothing; a rejection closes the candidate, an acceptance saves it first.
  ghost predicate DecidedAs(t: Text, db: Db, n: Db, user: int, c: CandidateId, expected: nat, accept: bool,
      edit: Option<Edit>, completed: bool, id: MemoryId, r: Result<Verdict, Error>) {
    if c !in db.candidates || db.candidates[c].user != user || !completed then r.Failure?
    else
      var k := db.candidates[c];
      var decision := if accept then Accepted else Rejected;
      if !Writable(db, k.datasource, user) then r.Failure?
      else if k.status == decision && k.version == expected + 1 then
        n == db && r == Success(Verdict(decision, k.result))
      else if !k.status.Pending? || k.version != expected then r.Failure?
      else if !accept then ClosedAs(db, n, c, Rejected, None) && r == Success(Verdict(Rejected, None))
      else
        var given := if edit.Some? then edit.value.content else k.content;
        && (r.Success? ==> exists kept :: ContentKept(given, kept))
        && forall kept :: ContentKept(given, kept) ==> AcceptedAs(t, db, n, user, c, kept, edit, id, r)
  }

  lemma DecideEffect(t: Text, db: Db, user: int, c: CandidateId, expected: nat, accept: bool, edit: Option<Edit>,
      completed: bool, id: MemoryId)
    ensures var (n, r) := Decide(t, db, user, c, expected, accept, edit, completed, id);
            && (r.Failure? ==> n == db)
            && (edit.Some? && (!accept || forall kept :: !ContentKept(edit.value.content, kept)) ==> r.Failure?)
            && (edit.None? || (accept && exists kept :: ContentKept(edit.value.content, kept)) ==>
                  DecidedAs(t, db, n, user, c, expected, accept, edit, completed, id, r))
  {
    hide ContentKept, Validate, Save, AcceptedAs;
    forall given, kept ensures Validate(given) == Success(kept) <==> ContentKept(given, kept) {
      ContentIsKept(given, kept);
    }
    if c in db.candidates && accept && db.candidates[c].status.Pending? {
      var k := db.candidates[c];
      var given := Validate(if edit.Some? then edit.value.content else k.content);
      if given.Success? {
        AcceptEffect(t, db, user, c, given.value, edit, id);
      }
    }
  }

  lemma AcceptEffect(t: Text, db: Db, user: int, c: CandidateId, kept: Content, edit: Option<Edit>, id: MemoryId)
    requires c in db.candidates
    ensures var k := db.candidates[c];
            var target := if edit.Some? && edit.value.target.Some? then edit.value.target else k.target;
            var (n, r) := Save(t, db, user, k.datasource, kept, target, Some(k.source), false, id);
            if r.Failure? then AcceptedAs(t, db, db, user, c, kept, edit, id, Failure(r.error))
            else
              && c in n.candidates
              && AcceptedAs(t, db, Close(n, c, true, Some(r.value)), user, c, kept, edit, id,
                            Success(Verdict(Accepted, Some(r.value))))
  {
    hide Save, MaySave;
    var k := db.candidates[c];
    var target := if edit.Some? && edit.value.target.Some? then edit.value.target else k.target;
    SaveEffect(t, db, user, k.datasource, kept, target, Some(k.source), false, id);
    var (n, r) := Save(t, db, user, k.datasource, kept, target, Some(k.source), false, id);
    if r.Success? {
      assert SavedAs(t, db, n, k.datasource, kept, target, Some(k.source), false, id, r.value);
      assert ClosedAs(n, Close(n, c, true, Some(r.value)), c, Accepted, Some(r.value));
    }
  }
}
