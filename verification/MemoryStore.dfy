/**
 * The memory tables as mutable state and the services that write them, each proved to leave the rows and give the reply
 * that MemoryRepository specifies.
 */
module MemoryStores {
  import opened Common
  import opened MemoryPolicy
  import opened MemoryRepository
  import opened MemoryProofs

  class MemoryStore {
    const text: Text
    var owners: map<int, int>
    var ids: seq<MemoryId>
    var memories: map<MemoryId, Head>
    var revisions: map<(MemoryId, nat), Revision>
    var candidates: map<CandidateId, Candidate>

    function Rows(): Db
      reads this
    {
      Db(owners, ids, memories, revisions, candidates)
    }

    constructor (text: Text, owners: map<int, int>)
      ensures Rows() == Start(owners) && this.text == text
    {
      this.text, this.owners := text, owners;
      ids, memories, revisions, candidates := [], map[], map[], map[];
    }

    method SaveMemory(user: int, ds: int, content: Content, target: Option<(MemoryId, nat)>,
        source: Option<SourceMessage>, deleted: bool, drawn: MemoryId)
      returns (r: Result<(MemoryId, nat), Error>)
      modifies this`ids, this`memories, this`revisions
      ensures (Rows(), r) == Save(text, old(Rows()), user, ds, content, target, source, deleted, drawn)
    {
      if ds !in owners || owners[ds] != user {
        return Failure(NotAccessible);
      }
      var name := NormalizedName(text, content.name);
      var m, version := drawn, 1;
      if target.Some? {
        m := target.value.0;
        if m !in memories || memories[m].datasource != ds {
          return Failure(NotAccessible);
        }
        if memories[m].version != target.value.1 || !memories[m].active {
          return Failure(Changed);
        }
        version := memories[m].version + 1;
      } else if m in memories {
        return Failure(Aborted);
      }
      if !deleted && Taken(Rows(), ds, name, if target.Some? then Some(m) else None) {
        return Failure(NameTaken);
      }
      if m !in memories {
        ids := ids + [m];
      }
      memories := memories[m := Head(ds, version, !deleted, name)];
      revisions := revisions[(m, version) := Revision(content, !deleted, source)];
      return Success((m, version));
    }

    method RememberFromConversation(user: int, ds: int, source: SourceMessage, body: Content, drawn: MemoryId)
        returns (r: Result<Remembered, Error>)
      modifies this`ids, this`memories, this`revisions
      ensures (Rows(), r) == Remember(text, old(Rows()), user, ds, source, body, drawn)
    {
      hide Save, Related, Validate;
      var content :- Validate(body);
      if ds !in owners || owners[ds] != user {
        return Failure(NotAccessible);
      }
      var existing := SavedFrom(Rows(), ds, source);
      if existing != {} {
        return Success(Already(existing));
      }
      var related := Related(text, content, ActiveIn(Rows(), ds, ids), None);
      if related != [] {
        return Failure(ReviewRequired);
      }
      var saved :- SaveMemory(user, ds, content, None, Some(source), false, drawn);
      return Success(Saved(saved.0));
    }

    method CreateMemory(user: int, ds: int, body: Content, drawn: MemoryId) returns (r: Result<(MemoryId, nat), Error>)
      modifies this`ids, this`memories, this`revisions
      ensures (Rows(), r) == Create(text, old(Rows()), user, ds, body, drawn)
    {
      hide Save, Validate;
      var content :- Validate(body);
      r := SaveMemory(user, ds, content, None, None, false, drawn);
    }

    method UpdateMemory(user: int, m: MemoryId, expected: nat, name: Option<string>, description: Option<string>,
        deleted: bool)
      returns (r: Result<(MemoryId, nat), Error>)
      modifies this`ids, this`memories, this`revisions
      ensures (Rows(), r) == Update(text, old(Rows()), user, m, expected, name, description, deleted)
    {
      hide Save, Validate;
      if m !in memories {
        return Failure(NotAccessible);
      }
      var content := Current(Rows(), m).content;
      if !deleted {
        content :- Validate(Content(name.GetOr(content.name), description.GetOr(content.description)));
      }
      r := SaveMemory(user, memories[m].datasource, content, Some((m, expected)), None, deleted, 0);
    }

    method ProposeMemory(user: int, ds: int, generation: nat, owned: bool, source: SourceMessage, body: Content,
        target: Option<(MemoryId, nat)>, drawn: CandidateId)
      returns (r: Result<Proposal, Error>)
      modifies this`candidates
      ensures (Rows(), r) == Propose(old(Rows()), user, ds, generation, owned, source, body, target, drawn)
    {
      hide Validate;
      var content :- Validate(body);
      if !owned {
        return Failure(Stopped);
      }
      if ds !in owners || owners[ds] != user {
        return Failure(NotAccessible);
      }
      if target.Some? {
        var m := target.value.0;
        if m !in memories || memories[m].datasource != ds || !memories[m].active {
          return Failure(NotAccessible);
        }
        if memories[m].version != target.value.1 {
          return Failure(Changed);
        }
      }
      var own := Of(Rows(), generation);
      if exists c :: c in own && candidates[c].content == content && candidates[c].target == target {
        return Success(AlreadyProposed);
      }
      if |own| >= 10 {
        return Failure(TooManyCandidates);
      }
      if drawn in candidates {
        return Failure(Aborted);
      }
      candidates := candidates[drawn := Candidate(ds, user, generation, source, target, content, 1, Pending, None)];
      return Success(Proposed(drawn));
    }

    method DecideCandidate(user: int, c: CandidateId, expected: nat, accept: bool, edit: Option<Edit>,
        completed: bool, drawn: MemoryId)
      returns (r: Result<Verdict, Error>)
      modifies this
      ensures (Rows(), r) == Decide(text, old(Rows()), user, c, expected, accept, edit, completed, drawn)
    {
      hide Save, Validate;
      var edited := Content("", "");
      if edit.Some? {
        edited :- Validate(edit.value.content);
      }
      if edit.Some? && !accept {
        return Failure(BadRequest);
      }
      if c !in candidates || candidates[c].user != user || !completed {
        return Failure(NotAccessible);
      }
      var k := candidates[c];
      if k.datasource !in owners || owners[k.datasource] != user {
        return Failure(NotAccessible);
      }
      if k.status == Decided(accept) && expected + 1 == k.version {
        return Success(Verdict(k.status, k.result));
      }
      if !k.status.Pending? || k.version != expected {
        return Failure(Changed);
      }
      var result: Option<(MemoryId, nat)> := None;
      if accept {
        var content := edited;
        if edit.None? {
          content :- Validate(k.content);
        }
        var target := if edit.Some? && edit.value.target.Some? then edit.value.target else k.target;
        RefusedSaveChangesNothing(text, Rows(), user, k.datasource, content, target, Some(k.source), false, drawn);
        var saved :- SaveMemory(user, k.datasource, content, target, Some(k.source), false, drawn);
        result := Some(saved);
      }
      candidates := candidates[c := candidates[c].(status := Decided(accept), version := candidates[c].version + 1,
          result := result)];
      return Success(Verdict(Decided(accept), result));
    }

    // Any of them: the rows stay sound, and only move forward.
    method Perform(s: Step)
      requires Inv(text, Rows())
      modifies this
      ensures Rows() == Apply(text, old(Rows()), s) && Inv(text, Rows()) && Evolves(old(Rows()), Rows())
    {
      ApplyKeeps(text, Rows(), s);
      hide Inv, Evolves, Remember, Create, Update, Propose, Decide;
      match s {
        case RememberStep(u, ds, source, body, id) => var _ := RememberFromConversation(u, ds, source, body, id);
        case CreateStep(u, ds, body, id) => var _ := CreateMemory(u, ds, body, id);
        case UpdateStep(u, m, expected, name, description, deleted) =>
            var _ := UpdateMemory(u, m, expected, name, description, deleted);
        case ProposeStep(u, ds, g, owned, source, body, target, cid) =>
            var _ := ProposeMemory(u, ds, g, owned, source, body, target, cid);
        case DecideStep(u, cid, expected, accept, edit, completed, id) =>
          var _ := DecideCandidate(u, cid, expected, accept, edit, completed, id);
      }
    }
  }
}
