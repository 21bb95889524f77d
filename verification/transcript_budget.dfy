/**
 `enforce_budget` against its specification: evict in the order "unprotected,
 oldest first, then protected, oldest first", and stop at the first point where
 both budgets are met.
 */
module TranscriptBudget {
  import opened Basics
  import opened BoundedText
  import opened TranscriptState
  import opened TranscriptInvariant

  /** The protected, or the unprotected, messages in their order. */
  function Side(s: State, ms: seq<Message>, prot: bool): seq<Message> {
    if ms == [] then []
    else if IsProtected(s, ms[0]) == prot then [ms[0]] + Side(s, ms[1..], prot)
    else Side(s, ms[1..], prot)
  }

  function EvictionOrder(s: State): seq<Message> {
    Side(s, s.messages, false) + Side(s, s.messages, true)
  }

  function Ids(ms: seq<Message>): set<nat> {
    set i | 0 <= i < |ms| :: ms[i].id
  }

  /** The messages whose id is not among `gone`, in their order. */
  function Survivors(ms: seq<Message>, gone: set<nat>): seq<Message> {
    if ms == [] then []
    else if ms[0].id in gone then Survivors(ms[1..], gone)
    else [ms[0]] + Survivors(ms[1..], gone)
  }

  // ----- filters over pieces -----

  lemma {:induction false} SideConcat(s: State, a: seq<Message>, b: seq<Message>, prot: bool)
    ensures Side(s, a + b, prot) == Side(s, a, prot) + Side(s, b, prot)
  {
    hide IsProtected;
    if a == [] {
      assert a + b == b;
    } else {
      SideConcat(s, a[1..], b, prot);
      PrefixSlices(a, b, 1);
      ConsConcat(a[0], Side(s, a[1..], prot), Side(s, b, prot));
    }
  }

  lemma {:induction false} SideOfAlike(s: State, ms: seq<Message>, prot: bool)
    requires forall i :: 0 <= i < |ms| ==> IsProtected(s, ms[i]) == prot
    ensures Side(s, ms, prot) == ms && Side(s, ms, !prot) == []
  {
    if ms != [] {
      SideOfAlike(s, ms[1..], prot);
    }
  }

  lemma {:induction false} SideAgrees(s: State, t: State, ms: seq<Message>, prot: bool)
    requires forall i :: 0 <= i < |ms| ==> IsProtected(s, ms[i]) == IsProtected(t, ms[i])
    ensures Side(s, ms, prot) == Side(t, ms, prot)
  {
    if ms != [] {
      SideAgrees(s, t, ms[1..], prot);
    }
  }

  lemma {:induction false} SideIn(s: State, ms: seq<Message>, prot: bool)
    ensures |Side(s, ms, prot)| + |Side(s, ms, !prot)| == |ms|
    ensures forall i :: 0 <= i < |Side(s, ms, prot)| ==> IsProtected(s, Side(s, ms, prot)[i]) == prot
  {
    if ms != [] {
      SideIn(s, ms[1..], prot);
    }
  }

  lemma {:induction false} SurvivorsConcat(a: seq<Message>, b: seq<Message>, gone: set<nat>)
    ensures Survivors(a + b, gone) == Survivors(a, gone) + Survivors(b, gone)
  {
    if a == [] {
      assert a + b == b;
    } else {
      SurvivorsConcat(a[1..], b, gone);
      assert (a + b)[1..] == a[1..] + b;
    }
  }

  lemma {:induction false} SurvivorsIgnore(ms: seq<Message>, gone: set<nat>, id: nat)
    requires forall i :: 0 <= i < |ms| ==> ms[i].id != id
    ensures Survivors(ms, gone + {id}) == Survivors(ms, gone)
  {
    if ms != [] {
      SurvivorsIgnore(ms[1..], gone, id);
    }
  }

  lemma {:induction false} NobodyGone(ms: seq<Message>)
    ensures Survivors(ms, {}) == ms
  {
    if ms != [] {
      NobodyGone(ms[1..]);
    }
  }

  // ----- one eviction -----

  /** Cutting out message i is letting its id go as well. */
  lemma CutIsGone(ms: seq<Message>, i: nat, gone: set<nat>)
    requires Distinct(ms) && i < |ms|
    ensures Survivors(ms[..i] + ms[i + 1..], gone) == Survivors(ms, gone + {ms[i].id})
  {
    var a, m, b := ms[..i], ms[i], ms[i + 1..];
    assert ms == a + ([m] + b);
    SurvivorsConcat(a, b, gone);
    SurvivorsConcat(a, [m] + b, gone + {m.id});
    assert ([m] + b)[1..] == b;
    SurvivorsIgnore(a, gone, m.id);
    SurvivorsIgnore(b, gone, m.id);
  }

  /** The remembered ids that are forgotten protect no other message. */
  lemma ProtectionStays(s: State, i: nat, m: Message)
    requires i < |s.messages| && m.id != s.messages[i].id
    ensures IsProtected(RemoveMessage(s, i), m) == IsProtected(s, m)
  {
  }

  /** Before the victim everything is protected; a protected victim is the first of only protected ones. */
  lemma AroundVictim(s: State)
    requires s.messages != []
    ensures var v := Victim(s);
            && v < |s.messages| && Side(s, s.messages[..v], false) == []
            && (IsProtected(s, s.messages[v]) ==> v == 0 && Side(s, s.messages[1..], false) == [])
  {
    var ms := s.messages;
    var i := FirstUnprotected(s, ms);
    if i < |ms| {
      SideOfAlike(s, ms[..i], true);
    } else {
      SideOfAlike(s, ms[1..], true);
    }
  }

  /** Without the victim the others keep their protection, so both sides only lose the victim. */
  lemma SidesAfter(s: State, v: nat, prot: bool)
    requires Distinct(s.messages) && v < |s.messages|
    ensures var a, m, b := s.messages[..v], s.messages[v], s.messages[v + 1..];
            && Side(s, s.messages, prot) ==
               Side(s, a, prot) + ((if IsProtected(s, m) == prot then [m] else []) + Side(s, b, prot))
            && Side(RemoveMessage(s, v), RemoveMessage(s, v).messages, prot) == Side(s, a, prot) + Side(s, b, prot)
  {
    var ms, t := s.messages, RemoveMessage(s, v);
    var a, m, b := ms[..v], ms[v], ms[v + 1..];
    assert ms == a + ([m] + b);
    SplitSides(s, a, m, b);
    forall k | 0 <= k < |a + b| ensures IsProtected(t, (a + b)[k]) == IsProtected(s, (a + b)[k]) {
      assert (a + b)[k] == ms[if k < v then k else k + 1];
      ProtectionStays(s, v, (a + b)[k]);
    }
    SideAgrees(t, s, a + b, prot);
  }

  /** Two sides of an order, with the first one's head taken out. */
  lemma HeadTaken(a: seq<Message>, m: Message, b: seq<Message>, c: seq<Message>, d: seq<Message>, prot: bool)
    requires a == [] && (prot ==> b == [] && c == [])
    ensures var order := (a + ((if prot then [] else [m]) + b)) + (c + ((if prot then [m] else []) + d));
            order != [] && order[0] == m && order[1..] == (a + b) + (c + d)
  {
  }

  /** The victim is next in the order, and the rest of the order stays. */
  lemma VictimIsNext(s: State)
    requires Distinct(s.messages) && s.messages != []
    ensures var order := EvictionOrder(s);
            && order != [] && order[0] == s.messages[Victim(s)]
            && EvictionOrder(RemoveMessage(s, Victim(s))) == order[1..]
  {
    var v := Victim(s);
    AroundVictim(s);
    SidesAfter(s, v, false);
    SidesAfter(s, v, true);
    var front, m, back := s.messages[..v], s.messages[v], s.messages[v + 1..];
    HeadTaken(Side(s, front, false), m, Side(s, back, false), Side(s, front, true), Side(s, back, true),
              IsProtected(s, m));
  }

  lemma SplitSides(s: State, a: seq<Message>, m: Message, b: seq<Message>)
    ensures forall prot ::
              && Side(s, a + ([m] + b), prot) ==
                 Side(s, a, prot) + ((if IsProtected(s, m) == prot then [m] else []) + Side(s, b, prot))
              && Side(s, a + b, prot) == Side(s, a, prot) + Side(s, b, prot)
  {
    forall prot ensures
      && Side(s, a + ([m] + b), prot) ==
         Side(s, a, prot) + ((if IsProtected(s, m) == prot then [m] else []) + Side(s, b, prot))
      && Side(s, a + b, prot) == Side(s, a, prot) + Side(s, b, prot)
    {
      SideConcat(s, a, [m] + b, prot);
      SideConcat(s, a, b, prot);
      assert ([m] + b)[1..] == b;
    }
  }

  // ----- all evictions -----

  /** The budgets are met after the first k of the order are gone, and not earlier. */
  ghost predicate LeastCut(s: State, cfg: Config, k: nat) {
    && k <= |EvictionOrder(s)|
    && !OverBudget(Survivors(s.messages, Ids(EvictionOrder(s)[..k])), cfg)
    && forall j :: 0 <= j < k ==> OverBudget(Survivors(s.messages, Ids(EvictionOrder(s)[..j])), cfg)
  }

  lemma OrderShifts(order: seq<Message>, j: nat)
    requires order != [] && j < |order|
    ensures Ids(order[..j + 1]) == Ids(order[1..][..j]) + {order[0].id}
  {
    var longer, shorter := order[..j + 1], order[1..][..j];
    assert longer == [order[0]] + shorter;
    forall id | id in Ids(longer) ensures id in Ids(shorter) + {order[0].id} {
      var i :| 0 <= i < |longer| && longer[i].id == id;
      if i > 0 {
        assert shorter[i - 1].id == id;
      }
    }
    forall id | id in Ids(shorter) ensures id in Ids(longer) {
      var i :| 0 <= i < |shorter| && shorter[i].id == id;
      assert longer[i + 1].id == id;
    }
    assert longer[0].id in Ids(longer);
  }

  /** Survivors after the victim's removal are survivors before it with one more gone. */
  lemma SurvivorsShift(s: State, j: nat)
    requires Distinct(s.messages) && s.messages != [] && j < |EvictionOrder(s)|
    ensures var t := RemoveMessage(s, Victim(s));
            && j <= |EvictionOrder(t)|
            && Survivors(t.messages, Ids(EvictionOrder(t)[..j])) ==
               Survivors(s.messages, Ids(EvictionOrder(s)[..j + 1]))
  {
    hide EvictionOrder, Victim, Survivors, Ids;
    VictimIsNext(s);
    OrderShifts(EvictionOrder(s), j);
    CutIsGone(s.messages, Victim(s), Ids(EvictionOrder(s)[1..][..j]));
  }

  lemma CutShifts(s: State, cfg: Config, k: nat)
    requires Distinct(s.messages) && s.messages != [] && OverBudget(s.messages, cfg)
    requires LeastCut(RemoveMessage(s, Victim(s)), cfg, k)
    ensures LeastCut(s, cfg, k + 1)
  {
    var order := EvictionOrder(s);
    VictimIsNext(s);
    SurvivorsShift(s, k);
    forall j | 0 <= j < k + 1 ensures OverBudget(Survivors(s.messages, Ids(order[..j])), cfg) {
      if j > 0 {
        SurvivorsShift(s, j - 1);
      } else {
        assert Ids(order[..0]) == {};
        NobodyGone(s.messages);
      }
    }
  }

  /** The eviction loop ends at the least cut. */
  ghost predicate EndsAtCut(s: State, cfg: Config, k: nat) {
    && LeastCut(s, cfg, k)
    && Evict(s, cfg).messages == Survivors(s.messages, Ids(EvictionOrder(s)[..k]))
    && Evict(s, cfg).dropped == s.dropped + k
  }

  lemma NothingToEvict(s: State, cfg: Config)
    requires s.messages == [] || !OverBudget(s.messages, cfg)
    ensures EndsAtCut(s, cfg, 0)
  {
    NobodyGone(s.messages);
    assert Ids(EvictionOrder(s)[..0]) == {};
    assert TextBytes([], cfg) == 0;
  }

  lemma OneMoreEvicted(s: State, cfg: Config, k: nat)
    requires Distinct(s.messages) && s.messages != [] && OverBudget(s.messages, cfg)
    requires EndsAtCut(RemoveMessage(s, Victim(s)), cfg, k)
    ensures EndsAtCut(s, cfg, k + 1)
  {
    CutShifts(s, cfg, k);
    SurvivorsShift(s, k);
  }

  lemma {:induction false} EvictIsLeast(s: State, cfg: Config) returns (k: nat)
    requires Distinct(s.messages)
    ensures EndsAtCut(s, cfg, k)
    decreases |s.messages|
  {
    if s.messages == [] || !OverBudget(s.messages, cfg) {
      NothingToEvict(s, cfg);
      k := 0;
    } else {
      CutOut(s.messages, Victim(s));
      k := EvictIsLeast(RemoveMessage(s, Victim(s)), cfg);
      OneMoreEvicted(s, cfg, k);
      k := k + 1;
    }
  }

  // ----- what is counted -----

  /** The contents of the messages that are no cards. */
  function Contents(ms: seq<Message>): seq<string> {
    if ms == [] then []
    else (if ms[0].variant.CardOf? then [] else [ms[0].content]) + Contents(ms[1..])
  }

  function Reasonings(ms: seq<Message>): seq<string> {
    seq(|ms|, i requires 0 <= i < |ms| => ms[i].reasoning)
  }

  /** The titles of the status rows. */
  function StatusTitles(ms: seq<Message>): seq<string> {
    if ms == [] then []
    else (if ms[0].variant.Status? then [ms[0].variant.title] else []) + StatusTitles(ms[1..])
  }

  function CardsIn(ms: seq<Message>): seq<Card> {
    if ms == [] then []
    else (if ms[0].variant.CardOf? then [ms[0].variant.card] else []) + CardsIn(ms[1..])
  }

  function AllCardBytes(cards: seq<Card>, cfg: Config): nat {
    if cards == [] then 0 else cfg.cardBytes(cards[0]) + AllCardBytes(cards[1..], cfg)
  }

  /** All that is said in a transcript, and the size of its cards. */
  function Weight(ms: seq<Message>, cfg: Config): nat {
    Bytes(Concat(Contents(ms)) + Concat(Reasonings(ms)) + Concat(StatusTitles(ms))) + AllCardBytes(CardsIn(ms), cfg)
  }

  predicate Exceeds(ms: seq<Message>, cfg: Config) {
    |ms| > cfg.maxMessages || Weight(ms, cfg) > cfg.maxTextBytes
  }

  lemma OneText(text: string, texts: seq<string>)
    ensures Concat([text] + texts) == text + Concat(texts)
    ensures Concat([] + texts) == Concat(texts)
  {
    assert ([text] + texts)[1..] == texts;
    assert [] + texts == texts;
  }

  lemma OneCard(card: Card, cards: seq<Card>, cfg: Config)
    ensures AllCardBytes([card] + cards, cfg) == cfg.cardBytes(card) + AllCardBytes(cards, cfg)
    ensures AllCardBytes([] + cards, cfg) == AllCardBytes(cards, cfg)
  {
    assert ([card] + cards)[1..] == cards;
    assert [] + cards == cards;
  }

  lemma PartsCount(a: string, b: string, c: string)
    ensures Bytes(a + b + c) == Bytes(a) + Bytes(b) + Bytes(c)
  {
    BytesConcat(a + b, c);
    BytesConcat(a, b);
  }

  lemma {:induction false} PartsAreCounted(ms: seq<Message>, cfg: Config)
    ensures TextBytes(ms, cfg) == Bytes(Concat(Contents(ms))) + Bytes(Concat(Reasonings(ms)))
                                  + Bytes(Concat(StatusTitles(ms))) + AllCardBytes(CardsIn(ms), cfg)
  {
    hide Bytes, Concat, AllCardBytes;
    if ms == [] {
      assert Bytes(Concat([])) == 0 && AllCardBytes([], cfg) == 0 by { NothingCounts(cfg); }
      assert Reasonings(ms) == [];
    } else {
      var m, rest := ms[0], ms[1..];
      PartsAreCounted(rest, cfg);
      assert Reasonings(ms) == [m.reasoning] + Reasonings(rest);
      OneText(m.reasoning, Reasonings(rest));
      BytesConcat(m.reasoning, Concat(Reasonings(rest)));
      OneText(m.content, Contents(rest));
      BytesConcat(m.content, Concat(Contents(rest)));
      if m.variant.Status? {
        OneText(m.variant.title, StatusTitles(rest));
        BytesConcat(m.variant.title, Concat(StatusTitles(rest)));
      } else {
        OneText("", StatusTitles(rest));
      }
      if m.variant.CardOf? {
        OneCard(m.variant.card, CardsIn(rest), cfg);
      } else {
        OneCard(ChartCard(""), CardsIn(rest), cfg);
      }
    }
  }

  lemma NothingCounts(cfg: Config)
    ensures Bytes(Concat([])) == 0 && AllCardBytes([], cfg) == 0
  {
  }

  /**
   What the budget counts: the bytes of all contents that are no cards, all reasonings
   and all status titles, and the sizes of the cards. A list is over budget exactly when
   there are too many messages or these are too many bytes.
   */
  lemma EverythingCounts(ms: seq<Message>, cfg: Config)
    ensures TextBytes(ms, cfg) == Weight(ms, cfg)
    ensures OverBudget(ms, cfg) <==> Exceeds(ms, cfg)
  {
    hide Bytes, Concat, AllCardBytes, TextBytes;
    PartsAreCounted(ms, cfg);
    PartsCount(Concat(Contents(ms)), Concat(Reasonings(ms)), Concat(StatusTitles(ms)));
  }

  /** While an unprotected message stays, no protected one goes. */
  lemma ProtectedGoLast(s: State, k: nat, i: nat)
    requires k <= |EvictionOrder(s)| && i < k
    requires IsProtected(s, EvictionOrder(s)[i])
    ensures |Side(s, s.messages, false)| <= i
    ensures forall j :: 0 <= j < |Side(s, s.messages, false)| ==> EvictionOrder(s)[j] == Side(s, s.messages, false)[j]
  {
    SideIn(s, s.messages, false);
  }

  /** What the check does, measured as the loop measures it. */
  lemma EnforceCuts(s: State, cfg: Config) returns (k: nat)
    requires Inv(s)
    ensures s.deferred ==> EnforceBudget(s, cfg) == s
    ensures var t, r := s.(messages := TruncateAll(s.messages, cfg.maxFieldBytes)), EnforceBudget(s, cfg);
            !s.deferred ==>
              && LeastCut(t, cfg, k) && r.dropped == s.dropped + k
              && r.messages == Survivors(t.messages, Ids(EvictionOrder(t)[..k]))
  {
    k := 0;
    if !s.deferred {
      TruncateAllKeeps(s, cfg.maxFieldBytes);
      k := EvictIsLeast(s.(messages := TruncateAll(s.messages, cfg.maxFieldBytes)), cfg);
    }
  }

  /** Both budgets are met after the first k of the order are gone, and not earlier. */
  ghost predicate LeastFit(s: State, cfg: Config, k: nat) {
    && k <= |EvictionOrder(s)|
    && !Exceeds(Survivors(s.messages, Ids(EvictionOrder(s)[..k])), cfg)
    && forall j :: 0 <= j < k ==> Exceeds(Survivors(s.messages, Ids(EvictionOrder(s)[..j])), cfg)
  }

  lemma CutFits(s: State, cfg: Config, k: nat)
    requires LeastCut(s, cfg, k)
    ensures LeastFit(s, cfg, k)
  {
    hide OverBudget, Exceeds, EvictionOrder, Survivors, Ids;
    EverythingCounts(Survivors(s.messages, Ids(EvictionOrder(s)[..k])), cfg);
    forall j | 0 <= j < k ensures Exceeds(Survivors(s.messages, Ids(EvictionOrder(s)[..j])), cfg) {
      EverythingCounts(Survivors(s.messages, Ids(EvictionOrder(s)[..j])), cfg);
    }
  }

  /**
   After field truncation, `enforce_budget` removes exactly the first k messages of
   the eviction order, for the least k that meets both budgets; the survivors keep
   their order, the counter of dropped messages grows by k, and the result is
   within both budgets. A deferred budget changes nothing.
   */
  lemma EnforceIsLeastEviction(s: State, cfg: Config) returns (k: nat)
    requires Inv(s)
    ensures s.deferred ==> EnforceBudget(s, cfg) == s
    ensures var t, r := s.(messages := TruncateAll(s.messages, cfg.maxFieldBytes)), EnforceBudget(s, cfg);
            !s.deferred ==>
              && LeastFit(t, cfg, k) && r.dropped == s.dropped + k
              && r.messages == Survivors(t.messages, Ids(EvictionOrder(t)[..k]))
              && |r.messages| <= cfg.maxMessages && Weight(r.messages, cfg) <= cfg.maxTextBytes
  {
    hide Inv, LeastCut, Weight, EvictionOrder, Survivors, Ids, EnforceBudget;
    k := EnforceCuts(s, cfg);
    if !s.deferred {
      CutFits(s.(messages := TruncateAll(s.messages, cfg.maxFieldBytes)), cfg, k);
    }
  }

  /**
   The messages that go last, in a transcript whose remembered ids name live rows: what
   is still written, status rows that are not done, running calls and subagents, and
   requests that wait for their answer.
   */
  lemma ProtectedIff(s: State, i: nat)
    requires Inv(s) && i < |s.messages|
    ensures var m := s.messages[i];
            IsProtected(s, m) <==>
            || m.isStreaming
            || (m.variant.Status? && !m.variant.isDone)
            || (m.variant.CardOf? && m.variant.card.ToolCard? && m.variant.card.tool.running)
            || (m.variant.CardOf? && m.variant.card.SubAgentCard? && m.variant.card.subagent.running)
            || (m.variant.CardOf? && m.variant.card.ConfirmCard? && m.variant.card.confirm.status == Pending)
            || (m.variant.CardOf? && m.variant.card.PermissionCard? && m.variant.card.permission.status == Pending)
  {
    OneTag(s.messages, i, LiveText);
    OneTag(s.messages, i, LiveStatus);
  }

  // ----- who goes, known before the check -----

  /** The messages as the check measures them. */
  function Bounded(s: State, cfg: Config): State {
    if s.deferred then s else s.(messages := TruncateAll(s.messages, cfg.maxFieldBytes))
  }

  /** With everything ahead of number p gone the rest is still over budget. */
  ghost predicate MustGo(s: State, cfg: Config, p: nat)
    requires p < |EvictionOrder(s)|
  {
    OverBudget(Survivors(s.messages, Ids(EvictionOrder(s)[..p])), cfg)
  }

  /** The ids of the messages that a budget check of this state removes. */
  ghost function Leaving(s: State, cfg: Config): set<nat> {
    var order := EvictionOrder(Bounded(s, cfg));
    if s.deferred then {} else set p | 0 <= p < |order| && MustGo(Bounded(s, cfg), cfg, p) :: order[p].id
  }

  lemma {:induction false} FewerSurvive(ms: seq<Message>, gone: set<nat>, more: set<nat>, cfg: Config)
    requires gone <= more
    ensures |Survivors(ms, more)| <= |Survivors(ms, gone)|
    ensures TextBytes(Survivors(ms, more), cfg) <= TextBytes(Survivors(ms, gone), cfg)
  {
    hide MessageBytes;
    if ms != [] {
      FewerSurvive(ms[1..], gone, more, cfg);
    }
  }

  lemma LongerPrefix(order: seq<Message>, j: nat, p: nat)
    requires j <= p <= |order|
    ensures Ids(order[..j]) <= Ids(order[..p])
  {
    forall id | id in Ids(order[..j]) ensures id in Ids(order[..p]) {
      var i :| 0 <= i < j && order[..j][i].id == id;
      assert order[..p][i].id == id;
    }
  }

  lemma CutIsLeaving(s: State, cfg: Config, k: nat)
    requires LeastCut(s, cfg, k)
    ensures var order := EvictionOrder(s); forall p :: 0 <= p < |order| ==> (MustGo(s, cfg, p) <==> p < k)
  {
    hide Survivors, EvictionOrder, Ids;
    var order := EvictionOrder(s);
    forall p | 0 <= p < |order| ensures MustGo(s, cfg, p) <==> p < k {
      if k <= p {
        LongerPrefix(order, k, p);
        FewerSurvive(s.messages, Ids(order[..k]), Ids(order[..p]), cfg);
      }
    }
  }

  lemma PrefixIds(order: seq<Message>, k: nat)
    requires k <= |order|
    ensures Ids(order[..k]) == set p | 0 <= p < k :: order[p].id
  {
  }

  /**
   Who goes is known before the check, message by message: a message goes if and only
   if with everything ahead of it in the order gone the rest is still over budget.
   */
  lemma CheckIsForeseen(s: State, cfg: Config)
    requires Inv(s)
    ensures EnforceBudget(s, cfg).messages == Survivors(Bounded(s, cfg).messages, Leaving(s, cfg))
  {
    hide Survivors, EvictionOrder, Ids, Inv, EnforceBudget, MustGo, LeastCut;
    if s.deferred {
      assert EnforceBudget(s, cfg) == s by { DeferredStays(s, cfg); }
      NobodyGone(s.messages);
    } else {
      var u := Bounded(s, cfg);
      var k := EnforceCuts(s, cfg);
      CutIsLeaving(u, cfg, k);
      assert k <= |EvictionOrder(u)| by { CutWithin(u, cfg, k); }
      PrefixIds(EvictionOrder(u), k);
      assert Leaving(s, cfg) == Ids(EvictionOrder(u)[..k]);
    }
  }

  lemma DeferredStays(s: State, cfg: Config)
    requires s.deferred
    ensures EnforceBudget(s, cfg) == s
  {
  }

  lemma CutWithin(s: State, cfg: Config, k: nat)
    requires LeastCut(s, cfg, k)
    ensures k <= |EvictionOrder(s)|
  {
  }

  predicate HasUnfinished(m: Message) {
    m.variant.CardOf? && Unfinished(m.variant.card)
  }

  lemma LastBytes(ms: seq<Message>, cfg: Config)
    requires ms != []
    ensures TextBytes(ms, cfg) >= TextBytes([ms[|ms| - 1]], cfg)
  {
    hide MessageBytes;
    if |ms| > 1 {
      LastBytes(ms[1..], cfg);
    } else {
      assert ms == [ms[0]];
    }
  }

  lemma RemovalEmpties(s: State)
    requires |s.messages| == 1
    ensures Victim(s) == 0 && RemoveMessage(s, 0).messages == []
  {
    hide WithoutKey;
  }

  lemma OthersGoFirst(s: State)
    requires |s.messages| > 1 && HasUnfinished(s.messages[|s.messages| - 1])
    ensures var ms, v := s.messages, Victim(s);
            && v < |ms| - 1
            && RemoveMessage(s, v).messages == ms[..v] + ms[v + 1..]
            && (ms[..v] + ms[v + 1..])[|ms| - 2] == ms[|ms| - 1]
  {
    hide WithoutKey;
  }

  /** An unfinished card at the end is the last to go: it goes only when it is over budget all alone. */
  lemma {:induction false} UnfinishedAtTheEnd(s: State, cfg: Config)
    requires s.messages != [] && HasUnfinished(s.messages[|s.messages| - 1])
    ensures var m, after := s.messages[|s.messages| - 1], Evict(s, cfg).messages;
            if OverBudget([m], cfg) then after == [] else after != [] && after[|after| - 1] == m
    decreases |s.messages|
  {
    hide Victim, RemoveMessage, TextBytes, HasUnfinished;
    var ms := s.messages;
    LastBytes(ms, cfg);
    if |ms| == 1 {
      assert ms == [ms[0]];
      RemovalEmpties(s);
    } else if OverBudget(ms, cfg) {
      OthersGoFirst(s);
      UnfinishedAtTheEnd(RemoveMessage(s, Victim(s)), cfg);
    }
  }

  // ----- the budget a second time -----

  lemma CutAgain(text: string, max: nat)
    ensures TruncateToRecent(TruncateToRecent(text, max), max) == TruncateToRecent(text, max)
  {
    TruncateTwice(text, max, max);
  }

  lemma {:induction false} FilesAgain(files: seq<FileStat>, max: nat)
    ensures BoundFiles(BoundFiles(files, max), max) == BoundFiles(files, max)
    ensures |BoundFiles(files, max)| == |files|
  {
    hide TruncateToRecent;
    if files != [] {
      CutAgain(files[0].path, max);
      FilesAgain(files[1..], max);
    }
  }

  lemma {:induction false} ItemsAgain(items: seq<ConfirmItem>, max: nat)
    ensures BoundItems(BoundItems(items, max), max) == BoundItems(items, max)
    ensures |BoundItems(items, max)| == |items|
  {
    hide TruncateToRecent;
    if items != [] {
      CutAgain(items[0].toolName, max);
      CutAgain(items[0].inputSummary, max);
      CutAgain(items[0].inputJson, max);
      ItemsAgain(items[1..], max);
    }
  }

  lemma {:induction false} OptionsAgain(options: seq<PermissionOption>, max: nat)
    ensures BoundOptions(BoundOptions(options, max), max) == BoundOptions(options, max)
    ensures |BoundOptions(options, max)| == |options|
  {
    hide TruncateToRecent;
    if options != [] {
      CutAgain(options[0].name, max);
      OptionsAgain(options[1..], max);
    }
  }

  lemma {:induction false} StepsAgain(steps: seq<PlanStep>, max: nat)
    ensures BoundSteps(BoundSteps(steps, max), max) == BoundSteps(steps, max)
    ensures |BoundSteps(steps, max)| == |steps|
  {
    hide TruncateToRecent;
    if steps != [] {
      CutAgain(steps[0].title, max);
      CutAgain(steps[0].description, max);
      CutAgain(steps[0].risk, max);
      StepsAgain(steps[1..], max);
    }
  }

  lemma OptionAgain(text: Option<string>, max: nat)
    ensures BoundOption(BoundOption(text, max), max) == BoundOption(text, max)
  {
    hide TruncateToRecent;
    if text.Some? {
      CutAgain(text.value, max);
    }
  }

  lemma ToolAgain(d: ToolCardData, max: nat)
    ensures BoundTool(BoundTool(d, max), max) == BoundTool(d, max)
  {
    hide TruncateToRecent, BoundFiles, BoundOption;
    CutAgain(d.toolName, max);
    OptionAgain(d.targetId, max);
    OptionAgain(d.targetLabel, max);
    CutAgain(d.inputSummary, max);
    CutAgain(d.inputJson, max);
    CutAgain(d.summary, max);
    CutAgain(d.dataText, max);
    FilesAgain(First(d.fileChanges, MAX_CARD_FILE_CHANGES), Min(max, MAX_CARD_ITEM_FIELD_BYTES));
  }

  lemma ConfirmAgain(d: ConfirmData, max: nat)
    ensures BoundConfirm(BoundConfirm(d, max), max) == BoundConfirm(d, max)
  {
    hide TruncateToRecent, BoundItems;
    CutAgain(d.toolName, max);
    CutAgain(d.inputSummary, max);
    CutAgain(d.inputJson, max);
    CutAgain(d.question, max);
    ItemsAgain(First(d.items, MAX_CARD_COLLECTION_ITEMS), Min(max, MAX_CARD_ITEM_FIELD_BYTES));
  }

  lemma PermissionAgain(d: PermissionData, max: nat)
    ensures BoundPermission(BoundPermission(d, max), max) == BoundPermission(d, max)
  {
    hide TruncateToRecent, BoundOptions;
    CutAgain(d.toolName, max);
    CutAgain(d.summary, max);
    CutAgain(d.detailsJson, max);
    CutAgain(d.selectedOptionName, max);
    OptionsAgain(First(d.options, MAX_CARD_COLLECTION_ITEMS), Min(max, MAX_CARD_ITEM_FIELD_BYTES));
  }

  lemma SubagentAgain(d: SubAgentData, max: nat)
    ensures BoundSubagent(BoundSubagent(d, max), max) == BoundSubagent(d, max)
  {
    hide TruncateToRecent;
    CutAgain(d.name, max);
    CutAgain(d.task, max);
    CutAgain(d.summary, max);
  }

  lemma PlanAgain(d: PlanData, max: nat)
    ensures BoundPlan(BoundPlan(d, max), max) == BoundPlan(d, max)
  {
    hide TruncateToRecent, BoundSteps;
    CutAgain(d.goal, max);
    StepsAgain(First(d.steps, MAX_CARD_COLLECTION_ITEMS), Min(max, MAX_CARD_ITEM_FIELD_BYTES));
  }

  lemma CardAgain(card: Card, max: nat)
    ensures BoundCard(BoundCard(card, max), max) == BoundCard(card, max)
  {
    hide TruncateToRecent, BoundTool, BoundConfirm, BoundPermission, BoundSubagent, BoundPlan;
    match card {
      case ToolCard(d) => ToolAgain(d, max);
      case ConfirmCard(d) => ConfirmAgain(d, max);
      case PermissionCard(d) => PermissionAgain(d, max);
      case SubAgentCard(d) => SubagentAgain(d, max);
      case PlanCard(d) => PlanAgain(d, max);
      case CompactionCard(_, text) => CutAgain(text, max);
      case ChartCard(_) =>
    }
  }

  /** Field truncation leaves what it truncated before. */
  lemma FieldsAgain(m: Message, max: nat)
    ensures TruncateFields(TruncateFields(m, max), max) == TruncateFields(m, max)
  {
    hide TruncateToRecent, BoundCard;
    CutAgain(m.content, max);
    CutAgain(m.reasoning, max);
    match m.variant {
      case Status(title, _) => CutAgain(title, max);
      case CardOf(card) => CardAgain(card, Min(max, MAX_CARD_FIELD_BYTES));
      case Text =>
    }
  }

  // ----- what field truncation cuts -----

  function TextIn(text: Option<string>): seq<string> {
    if text.Some? then [text.value] else []
  }

  /** The texts of a card itself. */
  function CardTexts(card: Card): seq<string> {
    match card
    case ToolCard(d) =>
      [d.toolName] + TextIn(d.targetId) + TextIn(d.targetLabel) + [d.inputSummary, d.inputJson, d.summary, d.dataText]
    case ConfirmCard(d) => [d.toolName, d.inputSummary, d.inputJson, d.question]
    case PermissionCard(d) => [d.toolName, d.summary, d.detailsJson, d.selectedOptionName]
    case SubAgentCard(d) => [d.name, d.task, d.summary]
    case PlanCard(d) => [d.goal]
    case CompactionCard(_, text) => [text]
    case ChartCard(_) => []
  }

  /** The texts of the items a card lists, item by item. */
  function ItemTexts(card: Card): seq<seq<string>> {
    match card
    case ToolCard(d) => seq(|d.fileChanges|, i requires 0 <= i < |d.fileChanges| => [d.fileChanges[i].path])
    case ConfirmCard(d) =>
      seq(|d.items|, i requires 0 <= i < |d.items| =>
        [d.items[i].toolName, d.items[i].inputSummary, d.items[i].inputJson])
    case PermissionCard(d) => seq(|d.options|, i requires 0 <= i < |d.options| => [d.options[i].name])
    case PlanCard(d) =>
      seq(|d.steps|, i requires 0 <= i < |d.steps| => [d.steps[i].title, d.steps[i].description, d.steps[i].risk])
    case _ => []
  }

  /** How many items a card may list. */
  function ItemLimit(card: Card): nat {
    if card.ToolCard? then MAX_CARD_FILE_CHANGES else MAX_CARD_COLLECTION_ITEMS
  }

  function NoText(text: Option<string>): Option<string> {
    if text.Some? then Some("") else None
  }

  /** What a card holds beside these texts, with no more items than it may list. */
  function Bare(card: Card): Card {
    match card
    case ToolCard(d) =>
      var files := First(d.fileChanges, MAX_CARD_FILE_CHANGES);
      ToolCard(d.(toolName := "", targetId := NoText(d.targetId), targetLabel := NoText(d.targetLabel),
                  inputSummary := "", inputJson := "", summary := "", dataText := "",
                  fileChanges := seq(|files|, i requires 0 <= i < |files| => files[i].(path := ""))))
    case ConfirmCard(d) =>
      var items := First(d.items, MAX_CARD_COLLECTION_ITEMS);
      ConfirmCard(d.(toolName := "", inputSummary := "", inputJson := "", question := "",
                     items := seq(|items|, i requires 0 <= i < |items| =>
                                items[i].(toolName := "", inputSummary := "", inputJson := ""))))
    case PermissionCard(d) =>
      var options := First(d.options, MAX_CARD_COLLECTION_ITEMS);
      PermissionCard(d.(toolName := "", summary := "", detailsJson := "", selectedOptionName := "",
                        options := seq(|options|, i requires 0 <= i < |options| => options[i].(name := ""))))
    case SubAgentCard(d) => SubAgentCard(d.(name := "", task := "", summary := ""))
    case PlanCard(d) =>
      var steps := First(d.steps, MAX_CARD_COLLECTION_ITEMS);
      PlanCard(d.(goal := "", steps := seq(|steps|, i requires 0 <= i < |steps| =>
                                         steps[i].(title := "", description := "", risk := ""))))
    case CompactionCard(n, _) => CompactionCard(n, "")
    case ChartCard(_) => card
  }

  function CutTexts(texts: seq<string>, max: nat): seq<string> {
    seq(|texts|, i requires 0 <= i < |texts| => TruncateToRecent(texts[i], max))
  }

  lemma {:induction false} FilesCut(files: seq<FileStat>, max: nat)
    ensures |BoundFiles(files, max)| == |files|
    ensures forall i :: 0 <= i < |files| ==>
              BoundFiles(files, max)[i] == files[i].(path := TruncateToRecent(files[i].path, max))
  {
    hide TruncateToRecent;
    if files != [] {
      FilesCut(files[1..], max);
    }
  }

  lemma {:induction false} ItemsCut(items: seq<ConfirmItem>, max: nat)
    ensures |BoundItems(items, max)| == |items|
    ensures forall i :: 0 <= i < |items| ==>
              BoundItems(items, max)[i] ==
              items[i].(toolName := TruncateToRecent(items[i].toolName, max),
                        inputSummary := TruncateToRecent(items[i].inputSummary, max),
                        inputJson := TruncateToRecent(items[i].inputJson, max))
  {
    hide TruncateToRecent;
    if items != [] {
      ItemsCut(items[1..], max);
    }
  }

  lemma {:induction false} OptionsCut(options: seq<PermissionOption>, max: nat)
    ensures |BoundOptions(options, max)| == |options|
    ensures forall i :: 0 <= i < |options| ==>
              BoundOptions(options, max)[i] == options[i].(name := TruncateToRecent(options[i].name, max))
  {
    hide TruncateToRecent;
    if options != [] {
      OptionsCut(options[1..], max);
    }
  }

  lemma {:induction false} StepsCut(steps: seq<PlanStep>, max: nat)
    ensures |BoundSteps(steps, max)| == |steps|
    ensures forall i :: 0 <= i < |steps| ==>
              BoundSteps(steps, max)[i] ==
              steps[i].(title := TruncateToRecent(steps[i].title, max),
                        description := TruncateToRecent(steps[i].description, max),
                        risk := TruncateToRecent(steps[i].risk, max))
  {
    hide TruncateToRecent;
    if steps != [] {
      StepsCut(steps[1..], max);
    }
  }

  /** Each text of a card is cut to its own recent part. */
  lemma CardTextsCut(card: Card, max: nat)
    ensures CardTexts(BoundCard(card, max)) == CutTexts(CardTexts(card), max)
  {
    hide TruncateToRecent, BoundFiles, BoundItems, BoundOptions, BoundSteps;
  }

  /** So is each text of an item, the items beyond the limit go, and nothing else changes. */
  lemma CardItemsCut(card: Card, max: nat)
    ensures var c, texts := BoundCard(card, max), First(ItemTexts(card), ItemLimit(card));
            && |ItemTexts(c)| == |texts|
            && (forall i :: 0 <= i < |texts| ==>
                  ItemTexts(c)[i] == CutTexts(texts[i], Min(max, MAX_CARD_ITEM_FIELD_BYTES)))
            && Bare(c) == Bare(card)
  {
    hide TruncateToRecent, BoundFiles, BoundItems, BoundOptions, BoundSteps;
    var item := Min(max, MAX_CARD_ITEM_FIELD_BYTES);
    match card {
      case ToolCard(d) => FilesCut(First(d.fileChanges, MAX_CARD_FILE_CHANGES), item);
      case ConfirmCard(d) => ItemsCut(First(d.items, MAX_CARD_COLLECTION_ITEMS), item);
      case PermissionCard(d) => OptionsCut(First(d.options, MAX_CARD_COLLECTION_ITEMS), item);
      case PlanCard(d) => StepsCut(First(d.steps, MAX_CARD_COLLECTION_ITEMS), item);
      case _ =>
    }
  }

  /** The texts cut to their recent parts, the first items kept, and everything else the same. */
  ghost predicate CardIsCut(card: Card, c: Card, max: nat) {
    var items := First(ItemTexts(card), ItemLimit(card));
    && CardTexts(c) == CutTexts(CardTexts(card), max)
    && |ItemTexts(c)| == |items|
    && (forall i :: 0 <= i < |items| ==>
          ItemTexts(c)[i] == CutTexts(items[i], Min(max, MAX_CARD_ITEM_FIELD_BYTES)))
    && Bare(c) == Bare(card)
  }

  /**
   What field truncation leaves of a message: the recent part of its text, its reasoning
   and its status title; of a card, the recent part of each of its texts within the
   card's limit and of each text of the first items within the items' limit. Id, turn,
   role, marks and everything else a card holds stay.
   */
  lemma FieldsAreCut(m: Message, max: nat)
    ensures var t := TruncateFields(m, max);
            && t.id == m.id && t.turn == m.turn && t.role == m.role && t.isStreaming == m.isStreaming
            && t.reasoning == TruncateToRecent(m.reasoning, max)
            && t.content == (if m.variant.Text? then TruncateToRecent(m.content, max) else m.content)
            && (m.variant.Text? ==> t.variant.Text?)
            && (m.variant.Status? ==>
                  t.variant == Status(TruncateToRecent(m.variant.title, max), m.variant.isDone))
            && (m.variant.CardOf? ==>
                  && t.variant.CardOf?
                  && CardIsCut(m.variant.card, t.variant.card, Min(max, MAX_CARD_FIELD_BYTES)))
  {
    hide TruncateToRecent, BoundCard, CardTexts, ItemTexts, Bare, CutTexts, ItemLimit;
    if m.variant.CardOf? {
      CardTextsCut(m.variant.card, Min(max, MAX_CARD_FIELD_BYTES));
      CardItemsCut(m.variant.card, Min(max, MAX_CARD_FIELD_BYTES));
    }
  }

  ghost predicate Truncated(ms: seq<Message>, max: nat) {
    forall i :: 0 <= i < |ms| ==> TruncateFields(ms[i], max) == ms[i]
  }

  lemma AllTruncated(ms: seq<Message>, max: nat)
    ensures Truncated(TruncateAll(ms, max), max)
    ensures Truncated(ms, max) ==> TruncateAll(ms, max) == ms
  {
    hide TruncateFields;
    forall i | 0 <= i < |ms| ensures TruncateFields(TruncateAll(ms, max)[i], max) == TruncateAll(ms, max)[i] {
      FieldsAgain(ms[i], max);
    }
  }

  lemma {:induction false} EvictedIsDone(s: State, cfg: Config)
    requires Truncated(s.messages, cfg.maxFieldBytes)
    ensures var t := Evict(s, cfg);
            && Truncated(t.messages, cfg.maxFieldBytes) && t.deferred == s.deferred
            && (t.messages == [] || !OverBudget(t.messages, cfg))
    decreases |s.messages|
  {
    hide TruncateFields, OverBudget, Victim;
    if s.messages != [] && OverBudget(s.messages, cfg) {
      var ms, v := s.messages, Victim(s);
      var rest := ms[..v] + ms[v + 1..];
      assert forall i :: 0 <= i < |rest| ==> rest[i] == ms[if i < v then i else i + 1];
      EvictedIsDone(RemoveMessage(s, v), cfg);
    }
  }

  /** Enforcing the budget a second time changes nothing. */
  lemma EnforceTwice(s: State, cfg: Config)
    ensures EnforceBudget(EnforceBudget(s, cfg), cfg) == EnforceBudget(s, cfg)
  {
    hide OverBudget;
    if !s.deferred {
      var t := s.(messages := TruncateAll(s.messages, cfg.maxFieldBytes));
      AllTruncated(s.messages, cfg.maxFieldBytes);
      EvictedIsDone(t, cfg);
      var u := Evict(t, cfg);
      AllTruncated(u.messages, cfg.maxFieldBytes);
      assert u.(messages := u.messages) == u;
    }
  }

  lemma StaysUndeferred(s: State, cfg: Config)
    ensures EnforceBudget(s, cfg).deferred == s.deferred
  {
    hide TruncateFields, OverBudget;
    AllTruncated(s.messages, cfg.maxFieldBytes);
    EvictedIsDone(s.(messages := TruncateAll(s.messages, cfg.maxFieldBytes)), cfg);
  }

  /** Flushing the deferred budget meets both budgets at once; flushing or enforcing again changes nothing. */
  lemma FlushMeetsBudgets(s: State, cfg: Config)
    requires Inv(s) && s.deferred
    ensures var t := Act(s, Flush, cfg);
            && !t.deferred && |t.messages| <= cfg.maxMessages && Weight(t.messages, cfg) <= cfg.maxTextBytes
            && Act(t, Flush, cfg) == t && EnforceBudget(t, cfg) == t
  {
    hide Act, EnforceBudget, Weight, LeastFit, Inv;
    var u := s.(deferred := false);
    StillInv(s, u);
    FlushIs(s, cfg);
    EnforceTwice(u, cfg);
    var k := EnforceIsLeastEviction(u, cfg);
    StaysUndeferred(u, cfg);
    FlushIs(EnforceBudget(u, cfg), cfg);
  }

  lemma FlushIs(s: State, cfg: Config)
    ensures Act(s, Flush, cfg) == if s.deferred then EnforceBudget(s.(deferred := false), cfg) else s
  {
    hide EnforceBudget, Apply, PushMcpApproval, PushPermission, DecidePermission, SetAcpStatus, SetAcpError, FailAcp,
         ClearAcpStatus, Push;
  }

  lemma StillInv(s: State, t: State)
    requires Inv(s) && t == s.(deferred := false)
    ensures Inv(t)
  {
  }
}
