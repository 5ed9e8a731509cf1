/**
 * What a browser shows, whatever the network does: for every generation it has registered, the fold of the first
 * `sequence` events of that generation's log.
 */
module ClientProofs {
  import opened Common
  import opened Events
  import opened Lifecycle
  import opened LifecycleHistory
  import opened Blocks
  import opened Client

  // ---------- The invariant ----------

  ghost predicate ViewTracks(b: Browser, db: Db, g: GenerationId)
    requires g in b.views
  {
    && g in db.generations
    && var v, row := b.views[g], db.generations[g];
       && row.user == b.user && v.conversation == row.conversation && v.message == row.message
       && v.sequence <= |LogOf(db, g)|
       && (v.conversation in b.messages ==>
           BlocksOf(b, v.conversation, v.message) == Fold([], LogOf(db, g)[..v.sequence]))
  }

  ghost predicate ViewsTrack(b: Browser, db: Db) {
    forall g :: g in b.views ==> ViewTracks(b, db, g)
  }

  predicate ViewedMessage(b: Browser, g: GenerationId, c: ConversationId, m: MessageId) {
    g in b.views && b.views[g].conversation == c && b.views[g].message == m
  }

  ghost predicate MessagesOwned(b: Browser) {
    forall c, m :: c in b.messages && m in b.messages[c] ==> exists g :: ViewedMessage(b, g, c, m)
  }

  ghost predicate BrowserInv(b: Browser, db: Db) {
    ViewsTrack(b, db) && MessagesOwned(b)
  }

  predicate InLog(db: Db, p: Payload) {
    && p.generation in db.generations
    && 1 <= p.sequence <= |LogOf(db, p.generation)| && LogOf(db, p.generation)[p.sequence - 1] == p
    && p.conversation == db.generations[p.generation].conversation && p.message == db.generations[p.generation].message
  }

  ghost predicate Awaiting(s: Session, db: Db, p: Payload, after: nat) {
    && InLog(db, p) && p.generation in s.browser.views
    && after == s.browser.views[p.generation].sequence && after + 1 < p.sequence
  }

  // The row that was read is the user's own, and if it was terminal then it has not changed since.
  ghost predicate PhaseInv(s: Session, db: Db) {
    match s.phase
    case Idle => true
    case Asked(p, after) => Awaiting(s, db, p, after)
    case RowRead(p, after, row) =>
      && Awaiting(s, db, p, after)
      && row.Some? && row.value.user == s.browser.user
      && (Terminal(row.value.status) ==> db.generations[p.generation] == row.value)
  }

  ghost predicate ClientInv(s: Session, db: Db) {
    BrowserInv(s.browser, db) && PhaseInv(s, db)
  }

  // What the proofs need from the lifecycle's invariant.
  ghost predicate LogsSound(db: Db) {
    MessagesDistinct(db) && LogsComplete(db)
  }

  lemma LoggedIsInLog(db: Db, g: GenerationId, p: Payload)
    requires LogsSound(db) && g in db.generations && p in LogOf(db, g)
    ensures InLog(db, p) && p.generation == g
  {
    assert LogComplete(db, g);
    var i :| 0 <= i < |LogOf(db, g)| && LogOf(db, g)[i] == p;
    assert WellNumbered(db, g, p, i + 1);
  }

  // ---------- One event ----------

  function Advanced(b: Browser, p: Payload): Browser {
    var v := ViewOf(b, p);
    PutMessage(
      b.(views := b.views[p.generation := v.(sequence := p.sequence, status := StatusAfter(v.status, p.event))]),
      p.conversation, p.message, ApplyBlock(BlocksOf(b, p.conversation, p.message), p.event))
  }

  lemma ShownIsViewed(b: Browser, db: Db, g: GenerationId)
    requires ViewsTrack(b, db) && MessagesOwned(b) && MessagesDistinct(db) && g in db.generations
    requires var row := db.generations[g]; row.conversation in b.messages && row.message in b.messages[row.conversation]
    ensures g in b.views
  {
    var h :| ViewedMessage(b, h, db.generations[g].conversation, db.generations[g].message);
    assert ViewTracks(b, db, h);
  }

  lemma UnseenIsBlank(b: Browser, db: Db, g: GenerationId)
    requires ViewsTrack(b, db) && MessagesOwned(b) && MessagesDistinct(db) && g in db.generations && g !in b.views
    ensures BlocksOf(b, db.generations[g].conversation, db.generations[g].message) == []
  {
    var row := db.generations[g];
    if row.conversation in b.messages && row.message in b.messages[row.conversation] {
      ShownIsViewed(b, db, g);
    }
  }

  lemma AdvancedTracks(b: Browser, db: Db, p: Payload)
    requires ViewsTrack(b, db) && MessagesOwned(b) && MessagesDistinct(db) && InLog(db, p)
    requires db.generations[p.generation].user == b.user && p.sequence == ViewOf(b, p).sequence + 1
    ensures ViewTracks(Advanced(b, p), db, p.generation)
  {
    var g := p.generation;
    var log := LogOf(db, g);
    assert log[..p.sequence][..p.sequence - 1] == log[..p.sequence - 1];
    if g in b.views {
      assert ViewTracks(b, db, g);
    } else {
      UnseenIsBlank(b, db, g);
      assert log[..0] == [];
    }
  }

  lemma AdvancedKeepsOthers(b: Browser, db: Db, p: Payload, h: GenerationId)
    requires ViewsTrack(b, db) && MessagesDistinct(db) && InLog(db, p) && h in b.views && h != p.generation
    ensures ViewTracks(Advanced(b, p), db, h)
  {
    hide ApplyBlock, Fold;
    assert ViewTracks(b, db, h);
    assert db.generations[h].message != p.message;
  }

  lemma AdvancedKeepsOwners(b: Browser, db: Db, p: Payload)
    requires ViewsTrack(b, db) && MessagesOwned(b) && InLog(db, p)
    ensures MessagesOwned(Advanced(b, p))
  {
    hide ApplyBlock, Fold;
    var n := Advanced(b, p);
    assert p.generation in b.views ==> ViewTracks(b, db, p.generation);
    forall c, m | c in n.messages && m in n.messages[c] ensures exists g :: ViewedMessage(n, g, c, m) {
      if c == p.conversation && m == p.message {
        assert ViewedMessage(n, p.generation, c, m);
      } else {
        var h :| ViewedMessage(b, h, c, m);
        assert ViewedMessage(n, h, c, m);
      }
    }
  }

  lemma AdvancedKeepsInv(b: Browser, db: Db, p: Payload)
    requires BrowserInv(b, db) && LogsSound(db) && InLog(db, p)
    requires db.generations[p.generation].user == b.user && p.sequence == ViewOf(b, p).sequence + 1
    ensures BrowserInv(Advanced(b, p), db)
  {
    hide Advanced, ViewTracks, MessagesOwned, InLog, LogsComplete;
    AdvancedTracks(b, db, p);
    AdvancedKeepsOwners(b, db, p);
    forall h | h in Advanced(b, p).views ensures ViewTracks(Advanced(b, p), db, h) {
      if h != p.generation {
        AdvancedViews(b, p, h);
        AdvancedKeepsOthers(b, db, p, h);
      }
    }
  }

  lemma AdvancedViews(b: Browser, p: Payload, h: GenerationId)
    requires h in Advanced(b, p).views && h != p.generation
    ensures h in b.views && Advanced(b, p).views[h] == b.views[h]
  {
  }

  // Any logged event is either the very next one, and moves the view on by one, or changes nothing.
  lemma ApplyKeepsInv(b: Browser, db: Db, p: Payload)
    requires BrowserInv(b, db) && LogsSound(db) && InLog(db, p) && db.generations[p.generation].user == b.user
    ensures BrowserInv(ApplyEvent(b, p).0, db)
    ensures ApplyEvent(b, p).1.Applied? <==> p.sequence == ViewOf(b, p).sequence + 1
    ensures ApplyEvent(b, p).0 == if ApplyEvent(b, p).1.Applied? then Advanced(b, p) else b
  {
    hide BrowserInv, LogsSound, PutMessage;
    if p.sequence == ViewOf(b, p).sequence + 1 {
      AdvancedKeepsInv(b, db, p);
    }
  }

  // ---------- The rest of the log in one go ----------

  lemma {:induction false} ApplySuffix(b: Browser, db: Db, g: GenerationId, after: nat, k: nat)
    requires BrowserInv(b, db) && LogsSound(db) && g in b.views && g in db.generations
          && db.generations[g].user == b.user
    requires b.views[g].sequence == after && after + k <= |LogOf(db, g)|
    ensures var n := ApplyEvents(b, LogOf(db, g)[after..after + k]);
            && BrowserInv(n, db) && n.user == b.user
            && g in n.views && n.views[g].sequence == after + k
    decreases k
  {
    hide BrowserInv, LogsSound, ApplyEvent, LogOf;
    var log := LogOf(db, g);
    if k == 0 {
      assert log[after..after] == [];
    } else {
      var p := log[after + k - 1];
      assert log[after..after + k][..k - 1] == log[after..after + k - 1];
      ApplySuffix(b, db, g, after, k - 1);
      LoggedIsInLog(db, g, p);
      var front := ApplyEvents(b, log[after..after + k - 1]);
      assert p.sequence == after + k by { SequenceAt(db, g, after + k - 1); }
      ApplyKeepsInv(front, db, p);
      AdvancedView(front, p);
    }
  }

  lemma SequenceAt(db: Db, g: GenerationId, i: nat)
    requires LogsSound(db) && g in db.generations && i < |LogOf(db, g)|
    ensures LogOf(db, g)[i].sequence == i + 1
  {
    assert LogComplete(db, g);
    assert WellNumbered(db, g, LogOf(db, g)[i], i + 1);
  }

  lemma AdvancedView(b: Browser, p: Payload)
    ensures p.generation in Advanced(b, p).views && Advanced(b, p).views[p.generation].sequence == p.sequence
    ensures Advanced(b, p).user == b.user
  {
  }

  // ---------- Registering ----------

  lemma RegisterKeepsInv(b: Browser, db: Db, g: GenerationId)
    requires BrowserInv(b, db) && LogsSound(db) && g in db.generations && g !in b.views
          && db.generations[g].user == b.user
    ensures BrowserInv(Register(b, g, db.generations[g].conversation, db.generations[g].message), db)
  {
    hide ViewTracks, MessagesOwned, LogsComplete, Register;
    var c, m := db.generations[g].conversation, db.generations[g].message;
    var n := Register(b, g, c, m);
    RegisteredTracks(b, db, g);
    RegisterKeepsOwners(b, g, c, m);
    forall h | h in n.views ensures ViewTracks(n, db, h) {
      if h != g {
        RegisterKeepsOthers(b, db, g, h);
      }
    }
  }

  lemma RegisteredTracks(b: Browser, db: Db, g: GenerationId)
    requires BrowserInv(b, db) && MessagesDistinct(db) && g in db.generations && g !in b.views
          && db.generations[g].user == b.user
    ensures var n := Register(b, g, db.generations[g].conversation, db.generations[g].message);
              g in n.views && ViewTracks(n, db, g)
  {
    hide ViewsTrack, MessagesOwned;
    UnseenIsBlank(b, db, g);
    assert LogOf(db, g)[..0] == [];
  }

  lemma RegisterKeepsOthers(b: Browser, db: Db, g: GenerationId, h: GenerationId)
    requires BrowserInv(b, db) && MessagesDistinct(db) && g in db.generations
    requires h in Register(b, g, db.generations[g].conversation, db.generations[g].message).views && h != g
    ensures ViewTracks(Register(b, g, db.generations[g].conversation, db.generations[g].message), db, h)
  {
    hide Fold, MessagesOwned;
    assert ViewTracks(b, db, h);
  }

  lemma RegisterKeepsOwners(b: Browser, g: GenerationId, c: ConversationId, m: MessageId)
    requires MessagesOwned(b) && g !in b.views
    ensures MessagesOwned(Register(b, g, c, m))
  {
    var n := Register(b, g, c, m);
    forall k, i | k in n.messages && i in n.messages[k] ensures exists h :: ViewedMessage(n, h, k, i) {
      if k == c && i == m {
        assert ViewedMessage(n, g, k, i);
      } else {
        var h :| ViewedMessage(b, h, k, i);
        assert ViewedMessage(n, h, k, i);
      }
    }
  }

  // Registering again, when events of the generation were applied before the reply to the request came in, is harmless
  // exactly if those events left the message empty; the stream then repeats nothing that shows.
  lemma RegisteringAgain(b: Browser, db: Db, g: GenerationId)
    requires BrowserInv(b, db) && LogsSound(db) && g in b.views
    ensures var v := b.views[g];
            ViewTracks(Register(b, g, v.conversation, v.message), db, g)
            <==> (v.conversation in b.messages ==> BlocksOf(b, v.conversation, v.message) == [])
  {
    assert ViewTracks(b, db, g);
    assert LogOf(db, g)[..0] == [];
  }

  // Otherwise the stream's repetition shows twice.
  lemma LateReplyRepeatsText(user: UserId, c: ConversationId, p: Payload)
    requires p.conversation == c && p.sequence == 1 && p.event.kind.Text?
    ensures var early := ApplyEvent(Browser(user, map[], map[c := map[]]), p).0;
            var again := ApplyEvent(Register(early, p.generation, c, p.message), p);
            && again.1.Applied?
            && BlocksOf(again.0, c, p.message) == [Copied(p.event), Copied(p.event)]
            && Fold([], [p]) == [Copied(p.event)]
  {
    assert [p][..0] == [];
  }

  // ---------- A gap is always closed from the log ----------

  lemma SuffixFacts(db: Db, g: GenerationId, after: nat)
    requires LogsSound(db) && g in db.generations && after < |LogOf(db, g)|
    ensures EventsAfter(LogOf(db, g), after) != [] && Contiguous(EventsAfter(LogOf(db, g), after), after)
    ensures Terminal(db.generations[g].status) ==> HasDone(EventsAfter(LogOf(db, g), after))
  {
    var log := LogOf(db, g);
    var events := EventsAfter(log, after);
    forall i | 0 <= i < |events| ensures events[i].sequence == after + i + 1 {
      SequenceAt(db, g, after + i);
    }
    assert LogComplete(db, g);
    if Terminal(db.generations[g].status) {
      assert events[|events| - 1] == log[|log| - 1];
      assert log[|log| - 1].event.kind.Done?;
    }
  }

  // What the history endpoint answers, for a row that may be older than the events: the rest of the log whenever there
  // is a rest; nothing new to a reader who is up to date with a generation that still runs; otherwise, that is to a
  // reader who knows all of a finished generation or more than there is, a snapshot.
  lemma HistoryIsExact(db: Db, g: GenerationId, row: Generation, user: UserId, after: nat, checkpoint: seq<Block>)
    requires LogsSound(db) && g in db.generations && RowEvolves(row, db.generations[g])
    ensures var h := HistoryReply(Some(row), user, EventsAfter(LogOf(db, g), after), after, checkpoint);
            && (h.NotFound? <==> row.user != user)
            && (row.user == user ==>
                  (h.EventsMode? <==> after < |LogOf(db, g)| || (after == row.lastSequence && !Terminal(row.status))))
            && (h.EventsMode? ==> h.events == EventsAfter(LogOf(db, g), after))
  {
    assert LogComplete(db, g);
    if after < |LogOf(db, g)| {
      SuffixFacts(db, g, after);
    } else {
      assert EventsAfter(LogOf(db, g), after) == [];
    }
  }

  // The resync that a gap triggers is answered from the log, brings the view to the end of the log as of its second
  // query, and the event that could not be applied before is then a duplicate.
  lemma GapIsClosedFromTheLog(s: Session, db: Db, checkpoint: seq<Block>)
    requires ClientInv(s, db) && LogsSound(db) && s.phase.RowRead?
    ensures var g := s.phase.event.generation;
            && HistorySeen(s, db, checkpoint) == EventsMode(EventsAfter(LogOf(db, g), s.phase.after))
            && g in s.browser.views
            && var b := ApplyHistory(s.browser, g, HistorySeen(s, db, checkpoint));
               && BrowserInv(b, db) && b.user == s.browser.user
               && g in b.views && b.views[g].sequence == |LogOf(db, g)|
               && ApplyEvent(b, s.phase.event).1.Duplicate?
               && ReadEvents(s, db, checkpoint) == Session(b, Idle)
  {
    hide BrowserInv, LogsSound;
    var g, after := s.phase.event.generation, s.phase.after;
    SuffixFacts(db, g, after);
    var log := LogOf(db, g);
    assert log[after..] == log[after..after + (|log| - after)];
    assert BrowserInv(s.browser, db);
    OwnView(s.browser, db, g);
    ApplySuffix(s.browser, db, g, after, |log| - after);
  }

  lemma OwnView(b: Browser, db: Db, g: GenerationId)
    requires BrowserInv(b, db) && g in b.views
    ensures g in db.generations && db.generations[g].user == b.user
  {
    assert ViewTracks(b, db, g);
  }

  // ---------- Every step of the browser ----------

  lemma ReceiveKeepsInv(s: Session, db: Db, p: Payload)
    requires ClientInv(s, db) && LogsSound(db) && Enabled(s, db, ReceiveStep(p))
    ensures ClientInv(Receive(s, p), db)
  {
    hide BrowserInv, LogsSound, Advanced;
    assert BrowserInv(s.browser, db);
    LoggedIsInLog(db, p.generation, p);
    ApplyKeepsInv(s.browser, db, p);
  }

  lemma CancelClickedKeepsInv(b: Browser, db: Db, g: GenerationId)
    requires BrowserInv(b, db)
    ensures BrowserInv(CancelClicked(b, g), db)
  {
    hide Fold;
    var n := CancelClicked(b, g);
    forall h | h in n.views ensures ViewTracks(n, db, h) {
      assert ViewTracks(b, db, h);
    }
    forall c, m | c in n.messages && m in n.messages[c] ensures exists h :: ViewedMessage(n, h, c, m) {
      var h :| ViewedMessage(b, h, c, m);
      assert ViewedMessage(n, h, c, m);
    }
  }

  lemma StepClientKeepsInv(s: Session, db: Db, step: ClientStep)
    requires ClientInv(s, db) && LogsSound(db)
    ensures ClientInv(StepClient(s, db, step), db)
  {
    hide BrowserInv, LogsSound, Receive, ReadEvents, Register, InLog;
    assert BrowserInv(s.browser, db);
    match step
    case RegisterStep(g) =>
      if Enabled(s, db, step) {
        RegisterKeepsInv(s.browser, db, g);
        RegisterKeepsPhase(s, db, g);
      }
    case ReceiveStep(p) =>
      if Enabled(s, db, step) {
        ReceiveKeepsInv(s, db, p);
      }
    case CancelClickedStep(g) => CancelClickedKeepsInv(s.browser, db, g);
    case ReadRowStep =>
      if s.phase.Asked? {
        OwnView(s.browser, db, s.phase.event.generation);
      }
    case ReadEventsStep(checkpoint) =>
      if s.phase.RowRead? {
        GapIsClosedFromTheLog(s, db, checkpoint);
      } else {
        assert ReadEvents(s, db, checkpoint) == s by { NoReadEvents(s, db, checkpoint); }
      }
    case GiveUpStep =>
  }

  lemma NoReadEvents(s: Session, db: Db, checkpoint: seq<Block>)
    requires !s.phase.RowRead?
    ensures ReadEvents(s, db, checkpoint) == s
  {
  }

  lemma RegisterKeepsPhase(s: Session, db: Db, g: GenerationId)
    requires PhaseInv(s, db) && g in db.generations && g !in s.browser.views
    ensures PhaseInv(s.(browser := Register(s.browser, g, db.generations[g].conversation, db.generations[g].message)),
          db)
  {
  }

  // ---------- The database moving on underneath ----------

  lemma EvolutionKeepsView(b: Browser, x: Db, y: Db, g: GenerationId)
    requires RowsEvolve(x, y) && LogsGrow(x, y) && g in b.views && ViewTracks(b, x, g)
    ensures ViewTracks(b, y, g)
  {
    hide Fold;
    assert LogOf(x, g) <= LogOf(y, g);
    assert LogOf(y, g)[..b.views[g].sequence] == LogOf(x, g)[..b.views[g].sequence];
    assert RowEvolves(x.generations[g], y.generations[g]);
  }

  lemma EvolutionKeepsInv(s: Session, x: Db, y: Db)
    requires RowsEvolve(x, y) && LogsGrow(x, y) && ClientInv(s, x)
    ensures ClientInv(s, y)
  {
    hide ViewTracks, MessagesOwned, RowsEvolve, LogsGrow;
    forall g | g in s.browser.views ensures ViewTracks(s.browser, y, g) {
      EvolutionKeepsView(s.browser, x, y, g);
    }
    EvolutionKeepsPhase(s, x, y);
  }

  lemma EvolutionKeepsPhase(s: Session, x: Db, y: Db)
    requires RowsEvolve(x, y) && LogsGrow(x, y) && PhaseInv(s, x)
    ensures PhaseInv(s, y)
  {
    if !s.phase.Idle? {
      var g := s.phase.event.generation;
      assert LogOf(x, g) <= LogOf(y, g);
      assert RowEvolves(x.generations[g], y.generations[g]);
    }
  }

  // ---------- The status that is shown at the end ----------

  // The last event that the browser applied to g is its done event.
  predicate DoneShown(b: Browser, db: Db, g: GenerationId) {
    && g in b.views && g in db.generations
    && var n := b.views[g].sequence;
       1 <= n <= |LogOf(db, g)| && LogOf(db, g)[n - 1].event.kind.Done?
  }

  ghost predicate EndsShown(b: Browser, db: Db) {
    forall g :: DoneShown(b, db, g) ==> b.views[g].status == db.generations[g].status
  }

  lemma DoneNamesStatus(db: Db, g: GenerationId, i: nat)
    requires LogsSound(db) && g in db.generations && i < |LogOf(db, g)| && LogOf(db, g)[i].event.kind.Done?
    ensures Terminal(db.generations[g].status) && i == |LogOf(db, g)| - 1
    ensures LogOf(db, g)[i].event.status.GetOr(Completed) == db.generations[g].status
  {
    assert LogComplete(db, g);
  }

  lemma AdvancedKeepsEnds(b: Browser, db: Db, p: Payload)
    requires EndsShown(b, db) && LogsSound(db) && InLog(db, p)
    ensures EndsShown(Advanced(b, p), db)
  {
    hide LogsSound, ApplyBlock;
    var n := Advanced(b, p);
    forall g | DoneShown(n, db, g) ensures n.views[g].status == db.generations[g].status {
      if g == p.generation {
        DoneNamesStatus(db, g, p.sequence - 1);
      } else {
        AdvancedViews(b, p, g);
      }
    }
  }

  lemma ApplyKeepsEnds(b: Browser, db: Db, p: Payload)
    requires BrowserInv(b, db) && EndsShown(b, db) && LogsSound(db) && InLog(db, p)
          && db.generations[p.generation].user == b.user
    ensures EndsShown(ApplyEvent(b, p).0, db)
  {
    hide BrowserInv, EndsShown, LogsSound, ApplyEvent, Advanced;
    ApplyKeepsInv(b, db, p);
    AdvancedKeepsEnds(b, db, p);
  }

  lemma {:induction false} ApplyEventsKeepsEnds(b: Browser, db: Db, g: GenerationId, after: nat, k: nat)
    requires BrowserInv(b, db) && EndsShown(b, db) && LogsSound(db) && g in b.views && g in db.generations
          && db.generations[g].user == b.user
    requires b.views[g].sequence == after && after + k <= |LogOf(db, g)|
    ensures EndsShown(ApplyEvents(b, LogOf(db, g)[after..after + k]), db)
    decreases k
  {
    hide BrowserInv, LogsSound, ApplyEvent, LogOf, EndsShown, InLog;
    var log := LogOf(db, g);
    if k == 0 {
      assert log[after..after] == [];
    } else {
      var p := log[after + k - 1];
      assert log[after..after + k][..k - 1] == log[after..after + k - 1];
      ApplyEventsKeepsEnds(b, db, g, after, k - 1);
      ApplySuffix(b, db, g, after, k - 1);
      LoggedIsInLog(db, g, p);
      ApplyKeepsEnds(ApplyEvents(b, log[after..after + k - 1]), db, p);
    }
  }

  // A reply to a cancel request that arrives after the end is shown as the state of the generation.
  lemma CancelReplyKeepsEndsUnlessLate(b: Browser, db: Db, g: GenerationId)
    requires EndsShown(b, db) && LogsSound(db)
    ensures EndsShown(CancelClicked(b, g), db) <==> !DoneShown(b, db, g)
  {
    hide LogsSound;
    var n := CancelClicked(b, g);
    if DoneShown(b, db, g) {
      DoneNamesStatus(db, g, b.views[g].sequence - 1);
      assert DoneShown(n, db, g);
    } else {
      forall h | DoneShown(n, db, h) ensures n.views[h].status == db.generations[h].status {
        assert DoneShown(b, db, h);
      }
    }
  }

  predicate LateCancelReply(s: Session, db: Db, step: ClientStep) {
    step.CancelClickedStep? && DoneShown(s.browser, db, step.id)
  }

  lemma RegisterKeepsEnds(b: Browser, db: Db, g: GenerationId)
    requires EndsShown(b, db) && g in db.generations && g !in b.views
    ensures EndsShown(Register(b, g, db.generations[g].conversation, db.generations[g].message), db)
  {
    var n := Register(b, g, db.generations[g].conversation, db.generations[g].message);
    forall h | DoneShown(n, db, h) ensures n.views[h].status == db.generations[h].status {
      assert h == g || DoneShown(b, db, h);
    }
  }

  lemma ReceiveKeepsEnds(s: Session, db: Db, p: Payload)
    requires ClientInv(s, db) && LogsSound(db) && EndsShown(s.browser, db) && Enabled(s, db, ReceiveStep(p))
    ensures EndsShown(Receive(s, p).browser, db)
  {
    hide BrowserInv, LogsSound, EndsShown, ApplyEvent;
    assert BrowserInv(s.browser, db);
    LoggedIsInLog(db, p.generation, p);
    ApplyKeepsEnds(s.browser, db, p);
  }

  lemma ReadEventsKeepsEnds(s: Session, db: Db, checkpoint: seq<Block>)
    requires ClientInv(s, db) && LogsSound(db) && EndsShown(s.browser, db) && s.phase.RowRead?
    ensures EndsShown(ReadEvents(s, db, checkpoint).browser, db)
  {
    hide BrowserInv, LogsSound, EndsShown;
    var g, after := s.phase.event.generation, s.phase.after;
    GapIsClosedFromTheLog(s, db, checkpoint);
    assert BrowserInv(s.browser, db);
    OwnView(s.browser, db, g);
    var log := LogOf(db, g);
    assert log[after..] == log[after..after + (|log| - after)];
    ApplyEventsKeepsEnds(s.browser, db, g, after, |log| - after);
  }

  lemma StepClientKeepsEnds(s: Session, db: Db, step: ClientStep)
    requires ClientInv(s, db) && LogsSound(db) && EndsShown(s.browser, db) && !LateCancelReply(s, db, step)
    ensures EndsShown(StepClient(s, db, step).browser, db)
  {
    hide ClientInv, LogsSound, Receive, ReadEvents, Register, EndsShown, DoneShown, CancelClicked;
    match step
    case RegisterStep(g) =>
      if Enabled(s, db, step) {
        RegisterKeepsEnds(s.browser, db, g);
      }
    case ReceiveStep(p) =>
      if Enabled(s, db, step) {
        ReceiveKeepsEnds(s, db, p);
      }
    case CancelClickedStep(g) => CancelReplyKeepsEndsUnlessLate(s.browser, db, g);
    case ReadRowStep =>
    case ReadEventsStep(checkpoint) =>
      if s.phase.RowRead? {
        ReadEventsKeepsEnds(s, db, checkpoint);
      } else {
        NoReadEvents(s, db, checkpoint);
      }
    case GiveUpStep =>
  }

  lemma EvolutionKeepsEnds(b: Browser, x: Db, y: Db)
    requires RowsEvolve(x, y) && LogsGrow(x, y) && ViewsTrack(b, x) && LogsSound(x) && EndsShown(b, x)
    ensures EndsShown(b, y)
  {
    hide Fold, BlocksOf, LogsSound;
    forall g | DoneShown(b, y, g) ensures b.views[g].status == y.generations[g].status {
      assert ViewTracks(b, x, g);
      assert LogOf(x, g) <= LogOf(y, g);
      assert DoneShown(b, x, g);
      DoneNamesStatus(x, g, b.views[g].sequence - 1);
      assert RowEvolves(x.generations[g], y.generations[g]);
    }
  }
}
