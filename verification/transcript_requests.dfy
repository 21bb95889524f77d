/**
 Approvals, permissions and questions: when a request waits for its answer, when
 asking again adds nothing, and what an answer changes.
 */
module TranscriptRequests {
  import opened Basics
  import opened BoundedText
  import opened FencedBlocks
  import opened TranscriptState
  import opened TranscriptInvariant
  import opened TranscriptBudget
  import opened TranscriptStuck
  import opened TranscriptCards
  import opened TranscriptRows

  // ----- an unfinished card at the end -----

  /** The budget has room for the card alone, or is not looked at. */
  predicate RoomFor(s: State, card: Card, cfg: Config) {
    s.deferred || (cfg.maxMessages >= 1 && cfg.cardBytes(card) <= cfg.maxTextBytes)
  }

  /** The card stands at the end under that id. */
  ghost predicate AtTheEnd(ms: seq<Message>, id: nat, card: Card) {
    ms != [] && ms[|ms| - 1].id == id && ms[|ms| - 1].variant == CardOf(card)
  }

  lemma CardAlone(m: Message, card: Card, cfg: Config)
    requires m.variant == CardOf(card) && m.reasoning == "" && Shown(card, cfg) == card
    ensures var t := TruncateFields(m, cfg.maxFieldBytes);
            && t.variant == CardOf(card) && t.id == m.id
            && (OverBudget([t], cfg) <==> cfg.maxMessages < 1 || cfg.cardBytes(card) > cfg.maxTextBytes)
  {
    hide BoundCard;
    var t := TruncateFields(m, cfg.maxFieldBytes);
    assert Bytes("") == 0;
    assert TextBytes([t], cfg) == MessageBytes(t, cfg) + TextBytes([], cfg);
  }

  /**
   An unfinished card that was just pushed stays through the budget check if and only
   if the budget has room for it alone; without that room nothing stays.
   */
  lemma PushedStaysIff(s: State, card: Card, cfg: Config)
    requires Unfinished(card) && Shown(card, cfg) == card
    ensures var after := EnforceBudget(Push(s, CardMessage(card)), cfg).messages;
            if RoomFor(s, card, cfg) then AtTheEnd(after, s.nextId, card) else after == []
  {
    hide Unfinished, Evict, OverBudget, TruncateFields, Shown;
    var t := Push(s, CardMessage(card));
    if !s.deferred {
      var u := t.(messages := TruncateAll(t.messages, cfg.maxFieldBytes));
      CardAlone(t.messages[|s.messages|], card, cfg);
      UnfinishedAtTheEnd(u, cfg);
    }
  }

  lemma EndIsFound(ms: seq<Message>, id: nat, card: Card)
    requires AtTheEnd(ms, id, card)
    ensures FindCard(ms, KeyOf(card)) == Some(|ms| - 1)
  {
  }

  /** What a request does before its card is pushed. */
  lemma SettledAround(s: State, cfg: Config)
    ensures var t := CloseSegment(FinishStatus(s), cfg);
            && t.deferred == s.deferred && t.nextId >= s.nextId && t.publicMcpIds == s.publicMcpIds
  {
    hide Finished, WithoutId, Splice;
  }

  lemma CheckedNext(s: State, cfg: Config)
    ensures EnforceBudget(s, cfg).nextId == s.nextId
  {
    hide Evict;
    EvictNext(s.(messages := TruncateAll(s.messages, cfg.maxFieldBytes)), cfg);
  }

  /** A request as it stands before the budget check. */
  function Asked(s: State, card: Card, cfg: Config): State {
    Push(CloseSegment(FinishStatus(s), cfg), CardMessage(card))
  }

  lemma AskedStaysIff(s: State, card: Card, cfg: Config)
    requires Unfinished(card) && Shown(card, cfg) == card
    ensures var id, t := CloseSegment(FinishStatus(s), cfg).nextId, EnforceBudget(Asked(s, card, cfg), cfg);
            && id >= s.nextId && t.nextId == id + 1
            && if RoomFor(s, card, cfg) then AtTheEnd(t.messages, id, card) else t.messages == []
  {
    hide CloseSegment, FinishStatus, EnforceBudget, AtTheEnd, Unfinished, Shown;
    SettledAround(s, cfg);
    PushedStaysIff(CloseSegment(FinishStatus(s), cfg), card, cfg);
    CheckedNext(Asked(s, card, cfg), cfg);
  }

  // ----- approvals -----

  lemma ApprovalWaits(d: ConfirmData, cfg: Config)
    ensures var card := ApprovalCard(d, cfg);
            && Unfinished(card) && KeyOf(card) == ConfirmKey(d.callId) && Shown(card, cfg) == card
            && card.ConfirmCard? && card.confirm.status == Pending
  {
    hide TruncateToRecent, BoundItems;
    ConfirmAgain(d.(items := [], status := Pending), CardLimit(cfg));
  }

  /** What `PushMcpApproval` does when no approval of the call is pending. */
  lemma ApprovalIs(s: State, d: ConfirmData, cfg: Config)
    requires !HasPendingConfirm(s, d.callId)
    ensures PushMcpApproval(s, d, cfg) ==
            EnforceBudget(Asked(s.(publicMcpIds := s.publicMcpIds + {d.callId}), ApprovalCard(d, cfg), cfg), cfg)
  {
    hide EnforceBudget, Push, CloseSegment, FinishStatus, ApprovalCard, HasPendingConfirm;
  }

  lemma ApprovalPendsIff(s: State, d: ConfirmData, cfg: Config)
    requires !HasPendingConfirm(s, d.callId)
    ensures var t := PushMcpApproval(s, d, cfg);
            && t.nextId > s.nextId
            && (HasPendingConfirm(t, d.callId) <==> RoomFor(s, ApprovalCard(d, cfg), cfg))
  {
    hide EnforceBudget, Asked, ApprovalCard, PushMcpApproval, Unfinished, Shown;
    var s0 := s.(publicMcpIds := s.publicMcpIds + {d.callId});
    var card := ApprovalCard(d, cfg);
    ApprovalWaits(d, cfg);
    ApprovalIs(s, d, cfg);
    AskedStaysIff(s0, card, cfg);
    var t := EnforceBudget(Asked(s0, card, cfg), cfg);
    if RoomFor(s, card, cfg) {
      EndIsFound(t.messages, CloseSegment(FinishStatus(s0), cfg).nextId, card);
    }
  }

  /**
   After an approval request one is pending if and only if one was before or the budget
   has room for the new card; and exactly then asking again under the same id, whatever
   it says, changes nothing.
   */
  lemma ApprovalIsAskedOnce(s: State, d: ConfirmData, again: ConfirmData, cfg: Config)
    requires again.callId == d.callId
    ensures var t := PushMcpApproval(s, d, cfg);
            && (HasPendingConfirm(t, d.callId) <==>
                HasPendingConfirm(s, d.callId) || RoomFor(s, ApprovalCard(d, cfg), cfg))
            && (PushMcpApproval(t, again, cfg) == t <==> HasPendingConfirm(t, d.callId))
  {
    hide EnforceBudget, CloseSegment, FinishStatus, Push, ApprovalCard, HasPendingConfirm, RoomFor;
    if !HasPendingConfirm(s, d.callId) {
      ApprovalPendsIff(s, d, cfg);
    }
    var t := PushMcpApproval(s, d, cfg);
    if !HasPendingConfirm(t, d.callId) {
      ApprovalPendsIff(t, again, cfg);
    }
  }

  lemma {:induction false} ExceptCounts(rows: seq<Row>, gone: set<nat>)
    ensures |Except(rows, gone)| <= |rows|
    ensures |Except(rows, gone)| == |rows| <==> forall i :: 0 <= i < |rows| ==> rows[i].id !in gone
  {
    if rows != [] {
      ExceptCounts(rows[1..], gone);
    }
  }

  /** Removing one message removes at most one card of a key, and its approval is no longer known. */
  lemma RemovalAndApprovals(s: State, v: nat, callId: string, cfg: Config)
    requires v < |s.messages|
    ensures var t, key := RemoveMessage(s, v), ConfirmKey(callId);
            && (IsCard(s.messages[v], key) ==> callId !in t.publicMcpIds)
            && (!IsCard(s.messages[v], key) ==> (callId in t.publicMcpIds <==> callId in s.publicMcpIds))
            && |RowsOf(t, key, cfg)| == |RowsOf(s, key, cfg)| - (if IsCard(s.messages[v], key) then 1 else 0)
  {
    hide Shown, WithoutKey;
    var ms, key := s.messages, ConfirmKey(callId);
    assert ms == ms[v := ms[v]];
    RowsAround(ms, v, ms[v], key, cfg);
    assert [ms[v]][1..] == [];
    RowsConcat(ms[..v], ms[v + 1..], key, cfg);
  }

  lemma {:induction false} KnownWhileAllStay(s: State, callId: string, cfg: Config)
    ensures var t, key := Evict(s, cfg), ConfirmKey(callId);
            && |RowsOf(t, key, cfg)| <= |RowsOf(s, key, cfg)|
            && (callId in t.publicMcpIds <==>
                callId in s.publicMcpIds && |RowsOf(t, key, cfg)| == |RowsOf(s, key, cfg)|)
    decreases |s.messages|
  {
    hide RowsOf, OverBudget, Victim, RemoveMessage, IsCard;
    if s.messages != [] && OverBudget(s.messages, cfg) {
      RemovalAndApprovals(s, Victim(s), callId, cfg);
      ShorterBy(s, Victim(s));
      KnownWhileAllStay(RemoveMessage(s, Victim(s)), callId, cfg);
    }
  }

  lemma ShorterBy(s: State, v: nat)
    requires v < |s.messages|
    ensures |RemoveMessage(s, v).messages| == |s.messages| - 1
  {
  }

  /** A call stays known as public through a budget check if and only if none of its cards has to go. */
  lemma KnownIff(s: State, callId: string, cfg: Config)
    requires Inv(s)
    ensures var rows := RowsOf(s, ConfirmKey(callId), cfg);
            callId in EnforceBudget(s, cfg).publicMcpIds <==>
            callId in s.publicMcpIds && forall i :: 0 <= i < |rows| ==> rows[i].id !in Leaving(s, cfg)
  {
    hide Rows, Inv, Evict, Leaving;
    var key := ConfirmKey(callId);
    CheckedRows(s, key, cfg);
    ExceptCounts(RowsOf(s, key, cfg), Leaving(s, cfg));
    TruncatedRows(s.messages, key, cfg);
    KnownWhileAllStay(s.(messages := TruncateAll(s.messages, cfg.maxFieldBytes)), callId, cfg);
    if s.deferred {
      assert Leaving(s, cfg) == {} by { NobodyLeaves(s, cfg); }
    }
  }

  lemma NobodyLeaves(s: State, cfg: Config)
    requires s.deferred
    ensures Leaving(s, cfg) == {}
  {
  }

  // ----- the cards of a request -----

  lemma {:induction false} LeftAreOld(rows: seq<Row>, gone: set<nat>)
    ensures forall i :: 0 <= i < |Except(rows, gone)| ==>
              Except(rows, gone)[i] in rows && Except(rows, gone)[i].id !in gone
  {
    if rows != [] {
      LeftAreOld(rows[1..], gone);
    }
  }

  lemma AskedRows(s: State, card: Card, cfg: Config)
    requires Inv(s) && KeyOf(card) != NoKey
    ensures var u, id := Asked(s, card, cfg), CloseSegment(FinishStatus(s), cfg).nextId;
            && Inv(u) && u.deferred == s.deferred && u.publicMcpIds == s.publicMcpIds
            && RowsOf(u, KeyOf(card), cfg) == RowsOf(s, KeyOf(card), cfg) + [Row(id, Shown(card, cfg))]
  {
    hide Inv, CloseSegment, FinishStatus, Shown, KeyOf;
    var t := CloseSegment(FinishStatus(s), cfg);
    SettledAround(s, cfg);
    FramesSettled(s, KeyOf(card), cfg);
    PushKeeps(t, CardMessage(card));
    var new_ := Stamp([CardMessage(card)], t.currentTurn, t.nextId);
    RowsConcat(t.messages, new_, KeyOf(card), cfg);
    assert new_[1..] == [];
  }

  /**
   An approval request leaves its call known as public if and only if the budget has
   room for the new card and no older card of the call has to go.
   */
  lemma ApprovalIsKnownIff(s: State, d: ConfirmData, cfg: Config)
    requires Inv(s) && !HasPendingConfirm(s, d.callId)
    ensures var s0, card := s.(publicMcpIds := s.publicMcpIds + {d.callId}), ApprovalCard(d, cfg);
            var older := RowsOf(s, ConfirmKey(d.callId), cfg);
            d.callId in PushMcpApproval(s, d, cfg).publicMcpIds <==>
            && RoomFor(s, card, cfg)
            && forall i :: 0 <= i < |older| ==> older[i].id !in Leaving(Asked(s0, card, cfg), cfg)
  {
    hide Inv, Asked, PushMcpApproval, EnforceBudget, ApprovalCard, HasPendingConfirm, Rows, Leaving, Unfinished, Shown;
    var s0, card, key := s.(publicMcpIds := s.publicMcpIds + {d.callId}), ApprovalCard(d, cfg), ConfirmKey(d.callId);
    SameRowsKeep(s, s0);
    ApprovalWaits(d, cfg);
    ApprovalIs(s, d, cfg);
    AskedRows(s0, card, cfg);
    AskedStaysIff(s0, card, cfg);
    var u := Asked(s0, card, cfg);
    KnownIff(u, d.callId, cfg);
    NewLeavesIff(u, s0, card, cfg);
    var rows, older := RowsOf(u, key, cfg), RowsOf(s, key, cfg);
    assert rows[|older|].id == CloseSegment(FinishStatus(s0), cfg).nextId;
    assert forall i :: 0 <= i < |older| ==> rows[i] == older[i];
  }

  /** The new card has to go exactly when there is no room for it. */
  lemma NewLeavesIff(u: State, s: State, card: Card, cfg: Config)
    requires Inv(u) && u == Asked(s, card, cfg) && Unfinished(card) && Shown(card, cfg) == card
    requires KeyOf(card) != NoKey && RowsOf(u, KeyOf(card), cfg) != []
    requires var rows := RowsOf(u, KeyOf(card), cfg);
             rows[|rows| - 1] == Row(CloseSegment(FinishStatus(s), cfg).nextId, card)
    ensures CloseSegment(FinishStatus(s), cfg).nextId in Leaving(u, cfg) <==> !RoomFor(s, card, cfg)
  {
    hide Inv, Asked, EnforceBudget, Rows, Leaving, Unfinished, Shown, KeyOf, CloseSegment, FinishStatus;
    AskedStaysIff(s, card, cfg);
    var t, key, id := EnforceBudget(u, cfg), KeyOf(card), CloseSegment(FinishStatus(s), cfg).nextId;
    CheckedRows(u, key, cfg);
    LeftAreOld(RowsOf(u, key, cfg), Leaving(u, cfg));
    if RoomFor(s, card, cfg) {
      EndIsFound(t.messages, id, card);
      LastRow(t.messages, key, cfg);
    } else {
      assert RowsOf(t, key, cfg) == [] by { NoRows(t.messages, key, cfg); }
      if id !in Leaving(u, cfg) {
        LastIsLeft(RowsOf(u, key, cfg), Leaving(u, cfg));
      }
    }
  }

  /** At the cap of one message, an answered card of the call is the first to go. */
  lemma OlderHasToGo(u: State, cfg: Config)
    requires Inv(u) && !u.deferred && cfg.maxMessages == 1 && |u.messages| == 2 && HasUnfinished(u.messages[1])
    ensures u.messages[0].id in Leaving(u, cfg)
  {
    hide Inv, TruncateFields, EvictionOrder;
    var b := Bounded(u, cfg);
    TruncateAllKeeps(u, cfg.maxFieldBytes);
    IdsDiffer(b);
    StillUnfinished(u.messages[1], cfg.maxFieldBytes);
    VictimIsNext(b);
    assert Victim(b) == 0;
    assert b.messages[0].id == u.messages[0].id by { TruncatedKind(u.messages[0], cfg.maxFieldBytes); }
    assert Ids(EvictionOrder(b)[..0]) == {};
    NobodyGone(b.messages);
    assert MustGo(b, cfg, 0);
  }

  lemma StillUnfinished(m: Message, max: nat)
    ensures HasUnfinished(TruncateFields(m, max)) <==> HasUnfinished(m)
  {
    hide TruncateToRecent, BoundItems, BoundOptions, BoundFiles, BoundSteps;
  }

  /** A lone card settles to itself. */
  lemma LoneCardSettles(s: State, card: Card, cfg: Config)
    requires Inv(s) && |s.messages| == 1 && s.messages[0].variant.CardOf? && KindOf(s.messages[0]) == Plain
    ensures var u := Asked(s, card, cfg);
            |u.messages| == 2 && u.messages[0] == s.messages[0] && u.messages[1].variant == CardOf(card)
  {
    OneTag(s.messages, 0, LiveText);
    OneTag(s.messages, 0, LiveStatus);
  }

  /**
   So a new approval can lose the mark of its call: when the answered card of the same
   call has to go for it, the request waits but is no longer known as public.
   */
  lemma ApprovalMarkCanGetLost(s: State, d: ConfirmData, cfg: Config)
    requires Inv(s) && !s.deferred && !HasPendingConfirm(s, d.callId)
    requires |s.messages| == 1 && IsCard(s.messages[0], ConfirmKey(d.callId))
    requires cfg.maxMessages == 1 && cfg.cardBytes(ApprovalCard(d, cfg)) <= cfg.maxTextBytes
    ensures var t := PushMcpApproval(s, d, cfg); HasPendingConfirm(t, d.callId) && d.callId !in t.publicMcpIds
  {
    hide Inv, Asked, PushMcpApproval, ApprovalCard, HasPendingConfirm, Leaving, Unfinished, Shown;
    var s0, card := s.(publicMcpIds := s.publicMcpIds + {d.callId}), ApprovalCard(d, cfg);
    var older := RowsOf(s, ConfirmKey(d.callId), cfg);
    SameRowsKeep(s, s0);
    ApprovalWaits(d, cfg);
    LoneCardSettles(s0, card, cfg);
    AskedRows(s0, card, cfg);
    OlderHasToGo(Asked(s0, card, cfg), cfg);
    assert older[0].id == s.messages[0].id;
    ApprovalIsKnownIff(s, d, cfg);
    ApprovalPendsIff(s, d, cfg);
  }

  lemma LastIsLeft(rows: seq<Row>, gone: set<nat>)
    requires rows != [] && rows[|rows| - 1].id !in gone
    ensures Except(rows, gone) != [] && Except(rows, gone)[|Except(rows, gone)| - 1] == rows[|rows| - 1]
  {
    var front, last := rows[..|rows| - 1], rows[|rows| - 1];
    assert rows == front + [last];
    ExceptConcat(front, [last], gone);
    assert [last][1..] == [];
  }

  // ----- permissions -----

  /** Every card of the list but the first waits for its answer. */
  ghost predicate RestWaits(rows: seq<Row>) {
    forall i :: 0 < i < |rows| ==> DecisionOf(rows[i].card) == Some(Pending)
  }

  lemma RequestWaits(d: PermissionData, cfg: Config)
    ensures var card := RequestCard(d, cfg);
            && Unfinished(card) && KeyOf(card) == PermissionKey(d.requestId) && Shown(card, cfg) == card
            && DecisionOf(card) == Some(Pending)
  {
    hide TruncateToRecent, BoundOptions;
    PermissionAgain(d.(status := Pending, selectedOptionName := ""), CardLimit(cfg));
  }

  lemma PendingByRows(s: State, requestId: string, cfg: Config)
    ensures var rows := RowsOf(s, PermissionKey(requestId), cfg);
            HasPendingPermission(s, requestId) <==> rows != [] && DecisionOf(rows[0].card) == Some(Pending)
  {
    hide BoundCard;
    FirstRow(s.messages, PermissionKey(requestId), cfg);
    var i := FindFirstCard(s.messages, PermissionKey(requestId));
    if i.Some? {
      KeyStays(s.messages[i.value].variant.card, CardLimit(cfg));
    }
  }

  lemma PermissionIs(s: State, d: PermissionData, cfg: Config)
    requires !HasPendingPermission(s, d.requestId)
    ensures PushPermission(s, d, cfg) == EnforceBudget(Asked(s, RequestCard(d, cfg), cfg), cfg)
  {
    hide EnforceBudget, Push, CloseSegment, FinishStatus, RequestCard, HasPendingPermission;
  }

  /** The first one left of a list whose rest waits. */
  lemma FirstLeft(rows: seq<Row>, gone: set<nat>)
    requires RestWaits(rows) && rows != []
    ensures RestWaits(Except(rows, gone))
    ensures var left := Except(rows, gone);
            && (rows[0].id !in gone ==> left != [] && left[0] == rows[0])
            && (rows[0].id in gone && left != [] ==> DecisionOf(left[0].card) == Some(Pending))
  {
    LeftAreOld(rows[1..], gone);
    var rest := Except(rows[1..], gone);
    forall i | 0 <= i < |rest| ensures DecisionOf(rest[i].card) == Some(Pending) {
      var j :| 0 <= j < |rows[1..]| && rows[1..][j] == rest[i];
      assert rows[j + 1] == rest[i];
    }
  }

  lemma RestWaitsLeft(rows: seq<Row>, gone: set<nat>)
    requires RestWaits(rows)
    ensures RestWaits(Except(rows, gone))
  {
    if rows != [] {
      FirstLeft(rows, gone);
    }
  }

  /** The cards after a request that is no repetition. */
  lemma PermissionRows(s: State, d: PermissionData, cfg: Config)
    requires Inv(s) && !HasPendingPermission(s, d.requestId)
    ensures var card, key := RequestCard(d, cfg), PermissionKey(d.requestId);
            RowsOf(PushPermission(s, d, cfg), key, cfg) ==
            Except(RowsOf(s, key, cfg) + [Row(CloseSegment(FinishStatus(s), cfg).nextId, card)],
                   Leaving(Asked(s, card, cfg), cfg))
  {
    hide Inv, Asked, EnforceBudget, PushPermission, HasPendingPermission, RequestCard, Rows, Leaving, CloseSegment,
         FinishStatus, Shown;
    RequestWaits(d, cfg);
    PermissionIs(s, d, cfg);
    AskedRows(s, RequestCard(d, cfg), cfg);
    CheckedRows(Asked(s, RequestCard(d, cfg), cfg), PermissionKey(d.requestId), cfg);
  }

  /** A request that is no repetition is pending exactly when it stays and no answered card is in front of it. */
  lemma PermissionPendsIff(s: State, d: PermissionData, cfg: Config)
    requires Inv(s) && !HasPendingPermission(s, d.requestId)
    requires RestWaits(RowsOf(s, PermissionKey(d.requestId), cfg))
    ensures var t, card, older := PushPermission(s, d, cfg), RequestCard(d, cfg),
                                  RowsOf(s, PermissionKey(d.requestId), cfg);
            && t.nextId > s.nextId
            && (HasPendingPermission(t, d.requestId) <==>
                RoomFor(s, card, cfg) && (older == [] || older[0].id in Leaving(Asked(s, card, cfg), cfg)))
  {
    hide Inv, Asked, EnforceBudget, PushPermission, HasPendingPermission, RequestCard, Rows, Leaving, CloseSegment,
         FinishStatus, Shown, Unfinished, Except, RestWaits, RoomFor;
    var t, card, key := PushPermission(s, d, cfg), RequestCard(d, cfg), PermissionKey(d.requestId);
    var older, id := RowsOf(s, key, cfg), CloseSegment(FinishStatus(s), cfg).nextId;
    RequestWaits(d, cfg);
    PermissionIs(s, d, cfg);
    AskedStaysIff(s, card, cfg);
    PermissionRows(s, d, cfg);
    PendingByRows(s, d.requestId, cfg);
    PendingByRows(t, d.requestId, cfg);
    assert RestWaits(older + [Row(id, card)]) by { OneMoreWaits(older, Row(id, card)); }
    FirstLeft(older + [Row(id, card)], Leaving(Asked(s, card, cfg), cfg));
    if RoomFor(s, card, cfg) {
      EndIsFound(t.messages, id, card);
      LastRow(t.messages, key, cfg);
      OnlyRow(Row(id, card), Leaving(Asked(s, card, cfg), cfg));
    } else {
      NoRows(t.messages, key, cfg);
      assert RowsOf(t, key, cfg) == [];
    }
  }

  lemma OneMoreWaits(rows: seq<Row>, row: Row)
    requires RestWaits(rows) && DecisionOf(row.card) == Some(Pending)
    ensures RestWaits(rows + [row])
  {
  }

  lemma OnlyRow(row: Row, gone: set<nat>)
    ensures Except([] + [row], gone) == if row.id in gone then [] else [row]
  {
    assert ([] + [row])[1..] == [];
  }

  lemma PermissionGrows(s: State, d: PermissionData, cfg: Config)
    requires !HasPendingPermission(s, d.requestId)
    ensures PushPermission(s, d, cfg).nextId > s.nextId
  {
    hide Asked, EnforceBudget, PushPermission, HasPendingPermission, RequestCard, CloseSegment, FinishStatus, Shown,
         Unfinished, RoomFor;
    RequestWaits(d, cfg);
    PermissionIs(s, d, cfg);
    AskedStaysIff(s, RequestCard(d, cfg), cfg);
  }

  // ----- answers -----

  /** The list with the card at i showing something else. */
  function WithCard(ms: seq<Message>, i: nat, card: Card): seq<Message>
    requires i < |ms|
  {
    ms[i := ms[i].(variant := CardOf(card))]
  }

  lemma {:induction false} FirstReplaced(ms: seq<Message>, key: CardKey, card: Card, cfg: Config)
    requires KeyOf(card) == key && FindFirstCard(ms, key).Some?
    ensures var i, rows := FindFirstCard(ms, key).value, Rows(ms, key, cfg);
            && rows != [] && rows[0].id == ms[i].id
            && Rows(WithCard(ms, i, card), key, cfg) == rows[0 := Row(ms[i].id, Shown(card, cfg))]
  {
    hide Shown;
    if !IsCard(ms[0], key) {
      var i := FindFirstCard(ms, key).value;
      FirstReplaced(ms[1..], key, card, cfg);
      assert WithCard(ms, i, card)[1..] == WithCard(ms[1..], i - 1, card);
    }
  }

  lemma {:induction false} LastReplaced(ms: seq<Message>, key: CardKey, card: Card, cfg: Config)
    requires KeyOf(card) == key && FindCard(ms, key).Some?
    ensures var i, rows := FindCard(ms, key).value, Rows(ms, key, cfg);
            && rows != [] && rows[|rows| - 1].id == ms[i].id
            && Rows(WithCard(ms, i, card), key, cfg) == rows[|rows| - 1 := Row(ms[i].id, Shown(card, cfg))]
  {
    hide Shown, Rows;
    var i, front, m := FindCard(ms, key).value, ms[..|ms| - 1], ms[|ms| - 1];
    assert ms == front + [m];
    RowsConcat(front, [m], key, cfg);
    RowsOfOne(m, key, cfg);
    if IsCard(m, key) {
      var put := m.(variant := CardOf(card));
      assert WithCard(ms, i, card) == front + [put];
      RowsConcat(front, [put], key, cfg);
      RowsOfOne(put, key, cfg);
    } else {
      LastReplaced(front, key, card, cfg);
      assert WithCard(ms, i, card) == WithCard(front, i, card) + [m];
      RowsConcat(WithCard(front, i, card), [m], key, cfg);
    }
  }

  function Decided(m: Message, status: Decision, name: string): Card
    requires m.variant.CardOf? && m.variant.card.PermissionCard?
  {
    PermissionCard(m.variant.card.permission.(status := status, selectedOptionName := name))
  }

  /** The transcript with the decision on the first card of the request, before the budget check. */
  function Answered(s: State, requestId: string, status: Decision, name: string): State
    requires FindFirstCard(s.messages, PermissionKey(requestId)).Some?
  {
    var i := FindFirstCard(s.messages, PermissionKey(requestId)).value;
    s.(messages := WithCard(s.messages, i, Decided(s.messages[i], status, name)))
  }

  lemma DecideIs(s: State, requestId: string, status: Decision, name: string, cfg: Config)
    requires FindFirstCard(s.messages, PermissionKey(requestId)).Some?
    ensures DecidePermission(s, requestId, status, name, cfg) ==
            EnforceBudget(Answered(s, requestId, status, name), cfg)
  {
    hide EnforceBudget, FindFirstCard;
  }

  lemma AnsweredKeeps(s: State, requestId: string, status: Decision, name: string)
    requires Inv(s) && FindFirstCard(s.messages, PermissionKey(requestId)).Some?
    ensures Inv(Answered(s, requestId, status, name))
  {
    hide Inv, FindFirstCard;
    var i := FindFirstCard(s.messages, PermissionKey(requestId)).value;
    InPlace(s, i, Answered(s, requestId, status, name).messages[i]);
  }

  /** The cards after an answer: the first one shows it, and some of the answered ones may have to go. */
  lemma AnsweredRows(s: State, requestId: string, status: Decision, name: string, cfg: Config) returns (row: Row)
    requires Inv(s) && FindFirstCard(s.messages, PermissionKey(requestId)).Some?
    ensures var key, u := PermissionKey(requestId), Answered(s, requestId, status, name);
            var rows := RowsOf(s, key, cfg);
            && rows != [] && row.id == rows[0].id && DecisionOf(row.card) == Some(status)
            && RowsOf(DecidePermission(s, requestId, status, name, cfg), key, cfg) ==
               Except(rows[0 := row], Leaving(u, cfg))
  {
    hide Inv, FindFirstCard, EnforceBudget, DecidePermission, Leaving, Rows, BoundCard;
    var key, u := PermissionKey(requestId), Answered(s, requestId, status, name);
    var i := FindFirstCard(s.messages, key).value;
    var card := Decided(s.messages[i], status, name);
    KeyStays(card, CardLimit(cfg));
    row := Row(s.messages[i].id, Shown(card, cfg));
    FirstReplaced(s.messages, key, card, cfg);
    AnsweredKeeps(s, requestId, status, name);
    DecideIs(s, requestId, status, name, cfg);
    CheckedRows(u, key, cfg);
  }

  // ----- every run of requests -----

  lemma AskKeepsRest(s: State, d: PermissionData, cfg: Config)
    requires Inv(s) && RestWaits(RowsOf(s, PermissionKey(d.requestId), cfg))
    ensures RestWaits(RowsOf(PushPermission(s, d, cfg), PermissionKey(d.requestId), cfg))
  {
    hide Inv, Asked, EnforceBudget, Push, HasPendingPermission, RequestCard, Rows, Leaving, CloseSegment,
         FinishStatus, Shown, RestWaits;
    if !HasPendingPermission(s, d.requestId) {
      var rows, card := RowsOf(s, PermissionKey(d.requestId), cfg), RequestCard(d, cfg);
      var row := Row(CloseSegment(FinishStatus(s), cfg).nextId, card);
      RequestWaits(d, cfg);
      PermissionRows(s, d, cfg);
      OneMoreWaits(rows, row);
      RestWaitsLeft(rows + [row], Leaving(Asked(s, card, cfg), cfg));
    }
  }

  lemma FirstMayChange(rows: seq<Row>, row: Row)
    requires RestWaits(rows) && rows != []
    ensures RestWaits(rows[0 := row])
  {
  }

  lemma DecideKeepsRest(s: State, requestId: string, status: Decision, name: string, cfg: Config)
    requires Inv(s) && RestWaits(RowsOf(s, PermissionKey(requestId), cfg))
    ensures RestWaits(RowsOf(DecidePermission(s, requestId, status, name, cfg), PermissionKey(requestId), cfg))
  {
    hide Inv, FindFirstCard, EnforceBudget, ReplaceFirstCard, Leaving, Rows, RestWaits, Except, Answered;
    if FindFirstCard(s.messages, PermissionKey(requestId)).Some? {
      var row := AnsweredRows(s, requestId, status, name, cfg);
      var rows := RowsOf(s, PermissionKey(requestId), cfg);
      FirstMayChange(rows, row);
      RestWaitsLeft(rows[0 := row], Leaving(Answered(s, requestId, status, name), cfg));
    }
  }

  lemma ThinsKeepsRest(s: State, t: State, key: CardKey, cfg: Config)
    requires Thins(s, t, key, cfg) && RestWaits(RowsOf(s, key, cfg))
    ensures RestWaits(RowsOf(t, key, cfg))
  {
    hide RowsOf, RestWaits;
    var gone: set<nat> :| RowsOf(t, key, cfg) == Except(RowsOf(s, key, cfg), gone);
    RestWaitsLeft(RowsOf(s, key, cfg), gone);
  }

  lemma ActKeepsRest(s: State, a: Action, requestId: string, cfg: Config)
    requires Inv(s) && RestWaits(RowsOf(s, PermissionKey(requestId), cfg))
    ensures RestWaits(RowsOf(Act(s, a, cfg), PermissionKey(requestId), cfg))
  {
    hide Inv, RowsOf, RestWaits, PushMcpApproval, PushPermission, DecidePermission, Apply, SetAcpStatus, SetAcpError,
         FailAcp, ClearAcpStatus, Push, EnforceBudget, Cleared, Thins;
    var key := PermissionKey(requestId);
    if !Concerns(a, key) {
      ActThins(s, a, key, cfg);
      ThinsKeepsRest(s, Act(s, a, cfg), key, cfg);
    } else {
      match a {
        case AskPermission(d) => AskKeepsRest(s, d, cfg);
        case AnswerPermission(id, option) =>
          DecideKeepsRest(s, id, if "reject" <= option.kind then Rejected else Approved, option.name, cfg);
        case WithdrawPermission(id) => DecideKeepsRest(s, id, Cancelled, "", cfg);
        case ApplyEvent(e) =>
      }
    }
  }

  lemma {:induction false} RunKeepsRest(actions: seq<Action>, requestId: string, cfg: Config)
    ensures RestWaits(RowsOf(Run(actions, cfg), PermissionKey(requestId), cfg))
  {
    hide Act, Inv;
    if actions != [] {
      RunKeeps(actions[..|actions| - 1], cfg);
      RunKeepsRest(actions[..|actions| - 1], requestId, cfg);
      ActKeepsRest(Run(actions[..|actions| - 1], cfg), actions[|actions| - 1], requestId, cfg);
    }
  }

  /** Every card of the key but the first waits for its answer. */
  ghost predicate OthersWait(ms: seq<Message>, key: CardKey) {
    forall i, j :: 0 <= i < j < |ms| && IsCard(ms[i], key) && IsCard(ms[j], key) ==>
      DecisionOf(ms[j].variant.card) == Some(Pending)
  }

  lemma {:induction false} AllWait(ms: seq<Message>, key: CardKey, cfg: Config)
    requires forall row :: row in Rows(ms, key, cfg) ==> DecisionOf(row.card) == Some(Pending)
    ensures forall j :: 0 <= j < |ms| && IsCard(ms[j], key) ==> DecisionOf(ms[j].variant.card) == Some(Pending)
  {
    hide KeyOf, BoundCard, DecisionOf;
    if ms != [] {
      if IsCard(ms[0], key) {
        KeyStays(ms[0].variant.card, CardLimit(cfg));
        assert Row(ms[0].id, Shown(ms[0].variant.card, cfg)) in Rows(ms, key, cfg);
      }
      AllWait(ms[1..], key, cfg);
    }
  }

  lemma {:induction false} RestWaitsBehind(ms: seq<Message>, key: CardKey, cfg: Config)
    requires RestWaits(Rows(ms, key, cfg))
    ensures OthersWait(ms, key)
  {
    hide KeyOf, Shown, DecisionOf;
    if ms != [] {
      var rows := Rows(ms, key, cfg);
      if IsCard(ms[0], key) {
        assert rows[1..] == Rows(ms[1..], key, cfg);
        AllWait(ms[1..], key, cfg);
      } else {
        RestWaitsBehind(ms[1..], key, cfg);
        OneInFront(ms, key);
      }
    }
  }

  lemma OneInFront(ms: seq<Message>, key: CardKey)
    requires ms != [] && !IsCard(ms[0], key) && OthersWait(ms[1..], key)
    ensures OthersWait(ms, key)
  {
    hide KeyOf, DecisionOf;
    forall i, j | 0 <= i < j < |ms| && IsCard(ms[i], key) && IsCard(ms[j], key)
      ensures DecisionOf(ms[j].variant.card) == Some(Pending)
    {
      assert ms[1..][i - 1] == ms[i] && ms[1..][j - 1] == ms[j];
    }
  }

  /**
   Only the first card of a permission request is ever answered: after every run each
   other card of its id waits for its answer, however often that was given.
   */
  lemma OnlyFirstIsAnswered(actions: seq<Action>, requestId: string, cfg: Config)
    ensures OthersWait(Run(actions, cfg).messages, PermissionKey(requestId))
  {
    hide Run, OthersWait, RestWaits;
    RunKeepsRest(actions, requestId, cfg);
    RestWaitsBehind(Run(actions, cfg).messages, PermissionKey(requestId), cfg);
  }

  /**
   After every run, a permission request leaves one pending if and only if one was
   pending before, or the budget has room for the new card and no card of the id was
   there or the first of them has to go; and exactly then asking again under the same
   id, whatever it says, changes nothing.
   */
  lemma PermissionIsAskedOnce(actions: seq<Action>, d: PermissionData, again: PermissionData, cfg: Config)
    requires again.requestId == d.requestId
    ensures var s, card := Run(actions, cfg), RequestCard(d, cfg);
            var i, t := FindFirstCard(s.messages, PermissionKey(d.requestId)), PushPermission(s, d, cfg);
            && (HasPendingPermission(t, d.requestId) <==>
                || HasPendingPermission(s, d.requestId)
                || (RoomFor(s, card, cfg)
                    && (i.None? || s.messages[i.value].id in Leaving(Asked(s, card, cfg), cfg))))
            && (PushPermission(t, again, cfg) == t <==> HasPendingPermission(t, d.requestId))
  {
    hide Run, Inv, Asked, HasPendingPermission, RequestCard, Leaving, RoomFor, Rows, RestWaits, FindFirstCard,
         EnforceBudget, Push, CloseSegment, FinishStatus, Shown;
    var s := Run(actions, cfg);
    RunKeeps(actions, cfg);
    RunKeepsRest(actions, d.requestId, cfg);
    FirstRow(s.messages, PermissionKey(d.requestId), cfg);
    if !HasPendingPermission(s, d.requestId) {
      PermissionPendsIff(s, d, cfg);
    }
    var t := PushPermission(s, d, cfg);
    if !HasPendingPermission(t, d.requestId) {
      PermissionGrows(t, again, cfg);
    }
  }

  // ----- what an answer changes -----

  /** The first card of that key is at i. */
  ghost predicate FirstCardAt(ms: seq<Message>, key: CardKey, i: nat) {
    i < |ms| && IsCard(ms[i], key) && forall j :: 0 <= j < i ==> !IsCard(ms[j], key)
  }

  lemma {:induction false} FoundIsFirst(ms: seq<Message>, key: CardKey)
    ensures var i := FindFirstCard(ms, key); i.Some? ==> FirstCardAt(ms, key, i.value)
  {
    hide KeyOf;
    if ms != [] && !IsCard(ms[0], key) {
      FoundIsFirst(ms[1..], key);
    }
  }

  lemma BoundedKeys(s: State, key: CardKey, cfg: Config)
    ensures var ms, after := s.messages, Bounded(s, cfg).messages;
            && |after| == |ms|
            && forall j :: 0 <= j < |ms| ==> after[j].id == ms[j].id && (IsCard(after[j], key) <==> IsCard(ms[j], key))
  {
    hide TruncateFields, IsCard;
    if !s.deferred {
      forall j | 0 <= j < |s.messages|
        ensures var m := TruncateFields(s.messages[j], cfg.maxFieldBytes);
                m.id == s.messages[j].id && (IsCard(m, key) <==> IsCard(s.messages[j], key))
      {
        ShownAgain(s.messages[j], key, cfg);
      }
    }
  }

  /** A card that comes instead of another of its key changes nothing else, within the field limits as without. */
  lemma OnlyThatCard(s: State, i: nat, card: Card, cfg: Config)
    requires i < |s.messages| && IsCard(s.messages[i], KeyOf(card))
    ensures var u := s.(messages := WithCard(s.messages, i, card));
            var before, after := Bounded(s, cfg).messages, Bounded(u, cfg).messages;
            && OnlyAt(before, after, i) && IsCard(after[i], KeyOf(card))
            && after[i].variant.card == Checked(s, card, cfg)
  {
    hide BoundCard, TruncateToRecent, KeyOf;
    KeyStays(card, CardLimit(cfg));
  }

  /** A card as it stands behind a budget check. */
  function Checked(s: State, card: Card, cfg: Config): Card {
    if s.deferred then card else Shown(card, cfg)
  }

  lemma FirstStaysFirst(before: seq<Message>, after: seq<Message>, key: CardKey, i: nat)
    requires FirstCardAt(before, key, i) && OnlyAt(before, after, i) && i < |before| && IsCard(after[i], key)
    ensures FirstCardAt(after, key, i)
  {
    hide IsCard;
  }

  lemma BoundedFirst(s: State, key: CardKey, i: nat, cfg: Config)
    requires FirstCardAt(s.messages, key, i)
    ensures FirstCardAt(Bounded(s, cfg).messages, key, i)
  {
    hide IsCard, Bounded;
    BoundedKeys(s, key, cfg);
  }

  /** What an answer decides, or a withdrawal. */
  function DecisionBy(answer: Option<PermissionOption>): Decision {
    if answer.None? then Cancelled
    else if |answer.value.kind| >= 6 && answer.value.kind[..6] == "reject" then Rejected
    else Approved
  }

  function NameBy(answer: Option<PermissionOption>): string {
    if answer.None? then "" else answer.value.name
  }

  function AnsweredBy(s: State, requestId: string, answer: Option<PermissionOption>, cfg: Config): State {
    if answer.None? then CancelPermission(s, requestId, cfg) else ResolvePermission(s, requestId, answer.value, cfg)
  }

  lemma AnsweredByIs(s: State, requestId: string, answer: Option<PermissionOption>, cfg: Config)
    ensures AnsweredBy(s, requestId, answer, cfg) ==
            DecidePermission(s, requestId, DecisionBy(answer), NameBy(answer), cfg)
  {
    hide DecidePermission;
  }

  /**
   An answered or withdrawn permission shows that on the first card of its id: cancelled,
   rejected when the option's kind begins with reject, approved otherwise, with the
   option's name, and the rest as it was. What is left after that is the list within the
   field limits, with no other message changed, without those who have to go; the request
   is no longer pending unless the answered card itself has to go.
   */
  lemma PermissionIsAnswered(s: State, requestId: string, answer: Option<PermissionOption>, cfg: Config)
    returns (after: seq<Message>)
    requires Inv(s) && FindFirstCard(s.messages, PermissionKey(requestId)).Some?
    ensures var key, i := PermissionKey(requestId), FindFirstCard(s.messages, PermissionKey(requestId)).value;
            var card := PermissionCard(s.messages[i].variant.card.permission.(
                                         status := DecisionBy(answer), selectedOptionName := NameBy(answer)));
            var u, t := s.(messages := WithCard(s.messages, i, card)), AnsweredBy(s, requestId, answer, cfg);
            && OnlyAt(Bounded(s, cfg).messages, after, i) && FirstCardAt(after, key, i)
            && after[i].variant.card == Checked(s, card, cfg)
            && t.messages == Survivors(after, Leaving(u, cfg))
            && (s.messages[i].id !in Leaving(u, cfg) ==> !HasPendingPermission(t, requestId))
  {
    hide Inv, EnforceBudget, DecidePermission, Leaving, OnlyAt, FirstCardAt, HasPendingPermission, Bounded, Survivors,
         FindFirstCard, AnsweredBy, DecisionBy, NameBy, Checked, WithCard;
    var status, name := DecisionBy(answer), NameBy(answer);
    AnsweredByIs(s, requestId, answer, cfg);
    after := Bounded(Answered(s, requestId, status, name), cfg).messages;
    FoundIsFirst(s.messages, PermissionKey(requestId));
    var i := FindFirstCard(s.messages, PermissionKey(requestId)).value;
    DecidedCard(s.messages[i], requestId, status, name);
    FirstLands(s, i, Decided(s.messages[i], status, name), cfg);
    IsDecided(answer);
    AnswerSettles(s, requestId, status, name, cfg);
    AnsweredKeeps(s, requestId, status, name);
    DecideIs(s, requestId, status, name, cfg);
    CheckIsForeseen(Answered(s, requestId, status, name), cfg);
  }

  lemma IsDecided(answer: Option<PermissionOption>)
    ensures DecisionBy(answer) != Pending
  {
  }

  lemma FirstLands(s: State, i: nat, card: Card, cfg: Config)
    requires FirstCardAt(s.messages, KeyOf(card), i)
    ensures var u := s.(messages := WithCard(s.messages, i, card));
            var after := Bounded(u, cfg).messages;
            && OnlyAt(Bounded(s, cfg).messages, after, i) && FirstCardAt(after, KeyOf(card), i)
            && after[i].variant == CardOf(Checked(s, card, cfg))
  {
    hide OnlyAt, Bounded, WithCard, Checked, KeyOf;
    OnlyThatCard(s, i, card, cfg);
    BoundedFirst(s, KeyOf(card), i, cfg);
    BoundedKeys(s, KeyOf(card), cfg);
    FirstStaysFirst(Bounded(s, cfg).messages, Bounded(s.(messages := WithCard(s.messages, i, card)), cfg).messages,
                    KeyOf(card), i);
  }

  lemma AnswerSettles(s: State, requestId: string, status: Decision, name: string, cfg: Config)
    requires Inv(s) && FindFirstCard(s.messages, PermissionKey(requestId)).Some? && status != Pending
    ensures var i, u := FindFirstCard(s.messages, PermissionKey(requestId)).value,
                        Answered(s, requestId, status, name);
            s.messages[i].id !in Leaving(u, cfg) ==>
            !HasPendingPermission(DecidePermission(s, requestId, status, name, cfg), requestId)
  {
    hide Inv, DecidePermission, Leaving, Rows, HasPendingPermission, Answered, FindFirstCard, Except, Shown;
    var key, u := PermissionKey(requestId), Answered(s, requestId, status, name);
    var row := AnsweredRows(s, requestId, status, name, cfg);
    FirstRow(s.messages, key, cfg);
    if row.id !in Leaving(u, cfg) {
      FirstOfReplaced(RowsOf(s, key, cfg), row, Leaving(u, cfg));
      PendingByRows(DecidePermission(s, requestId, status, name, cfg), requestId, cfg);
    }
  }

  lemma DecidedCard(m: Message, requestId: string, status: Decision, name: string)
    requires IsCard(m, PermissionKey(requestId))
    ensures m.variant.card.PermissionCard? && KeyOf(Decided(m, status, name)) == PermissionKey(requestId)
    ensures DecisionOf(Decided(m, status, name)) == Some(status)
  {
  }

  lemma FirstOfReplaced(rows: seq<Row>, row: Row, gone: set<nat>)
    requires rows != [] && row.id == rows[0].id && row.id !in gone
    ensures var left := Except(rows[0 := row], gone); left != [] && left[0] == row
  {
  }

  // ----- an id that comes again -----

  function AskAndAnswer(s: State, d: PermissionData, option: PermissionOption, cfg: Config): State {
    ResolvePermission(PushPermission(s, d, cfg), d.requestId, option, cfg)
  }

  lemma AskDeferred(s: State, d: PermissionData, cfg: Config)
    requires Inv(s) && s.deferred && !HasPendingPermission(s, d.requestId)
    ensures var t, key := PushPermission(s, d, cfg), PermissionKey(d.requestId);
            && Inv(t) && t.deferred
            && RowsOf(t, key, cfg) ==
               RowsOf(s, key, cfg) + [Row(CloseSegment(FinishStatus(s), cfg).nextId, RequestCard(d, cfg))]
  {
    hide Inv, Asked, PushPermission, HasPendingPermission, RequestCard, Rows, CloseSegment, FinishStatus, Shown;
    RequestWaits(d, cfg);
    AskedRows(s, RequestCard(d, cfg), cfg);
    PermissionIs(s, d, cfg);
  }

  lemma AnswerDeferred(s: State, requestId: string, status: Decision, name: string, cfg: Config) returns (row: Row)
    requires Inv(s) && s.deferred && FindFirstCard(s.messages, PermissionKey(requestId)).Some?
    ensures var t, key := DecidePermission(s, requestId, status, name, cfg), PermissionKey(requestId);
            && Inv(t) && t.deferred && RowsOf(s, key, cfg) != [] && row.id == RowsOf(s, key, cfg)[0].id
            && DecisionOf(row.card) == Some(status) && RowsOf(t, key, cfg) == RowsOf(s, key, cfg)[0 := row]
  {
    hide Inv, DecidePermission, Rows, FindFirstCard, Leaving, WithCard;
    row := AnsweredRows(s, requestId, status, name, cfg);
    var u := Answered(s, requestId, status, name);
    NobodyLeaves(u, cfg);
    ExceptNone(RowsOf(s, PermissionKey(requestId), cfg)[0 := row]);
    AnsweredKeeps(s, requestId, status, name);
    DecideIs(s, requestId, status, name, cfg);
  }

  lemma AskedAndAnswered(s: State, d: PermissionData, option: PermissionOption, cfg: Config) returns (row: Row)
    requires Inv(s) && s.deferred && !HasPendingPermission(s, d.requestId)
    ensures var t, key := AskAndAnswer(s, d, option, cfg), PermissionKey(d.requestId);
            var rows := RowsOf(s, key, cfg) + [Row(CloseSegment(FinishStatus(s), cfg).nextId, RequestCard(d, cfg))];
            && Inv(t) && t.deferred && RowsOf(t, key, cfg) == rows[0 := row]
            && DecisionOf(row.card).Some? && DecisionOf(row.card) != Some(Pending)
  {
    hide Inv, PushPermission, DecidePermission, HasPendingPermission, RequestCard, Rows, CloseSegment, FinishStatus;
    var u := PushPermission(s, d, cfg);
    AskDeferred(s, d, cfg);
    FirstRow(u.messages, PermissionKey(d.requestId), cfg);
    row := AnswerDeferred(u, d.requestId, if "reject" <= option.kind then Rejected else Approved, option.name, cfg);
  }

  /**
   A request of an id that was answered before is not answered: the answer goes to the
   first card again, the new card waits, and no request counts as pending.
   */
  lemma SecondAnswerMisses(s: State, d: PermissionData, first: PermissionOption, again: PermissionData,
                           second: PermissionOption, cfg: Config)
    requires Inv(s) && s.deferred && again.requestId == d.requestId
    requires FindFirstCard(s.messages, PermissionKey(d.requestId)).None?
    ensures var t := AskAndAnswer(AskAndAnswer(s, d, first, cfg), again, second, cfg);
            var rows := RowsOf(t, PermissionKey(d.requestId), cfg);
            && |rows| == 2 && DecisionOf(rows[0].card) != Some(Pending)
            && rows[1].card == RequestCard(again, cfg) && Unfinished(rows[1].card)
            && !HasPendingPermission(t, d.requestId)
  {
    hide Inv, AskAndAnswer, HasPendingPermission, RequestCard, Rows, CloseSegment, FinishStatus, FindFirstCard,
         Unfinished, DecisionOf;
    FirstRow(s.messages, PermissionKey(d.requestId), cfg);
    PendingByRows(s, d.requestId, cfg);
    var row := AskedAndAnswered(s, d, first, cfg);
    var u := AskAndAnswer(s, d, first, cfg);
    PendingByRows(u, d.requestId, cfg);
    var next := AskedAndAnswered(u, again, second, cfg);
    PendingByRows(AskAndAnswer(u, again, second, cfg), d.requestId, cfg);
    RequestWaits(again, cfg);
  }

  // ----- confirmations -----

  /** The transcript with the decision on the last card of the call, before the budget check. */
  function Resolved(s: State, callId: string, approved: bool): State
    requires FindCard(s.messages, ConfirmKey(callId)).Some?
  {
    var i := FindCard(s.messages, ConfirmKey(callId)).value;
    var d := s.messages[i].variant.card.confirm.(status := if approved then Approved else Rejected);
    s.(messages := WithCard(s.messages, i, ConfirmCard(d)))
  }

  lemma ResolveIs(s: State, callId: string, approved: bool, cfg: Config)
    requires FindCard(s.messages, ConfirmKey(callId)).Some?
    ensures ResolveConfirm(s, callId, approved, cfg) == EnforceBudget(Resolved(s, callId, approved), cfg)
  {
    hide EnforceBudget, FindCard;
  }

  lemma ResolvedKeeps(s: State, callId: string, approved: bool)
    requires Inv(s) && FindCard(s.messages, ConfirmKey(callId)).Some?
    ensures Inv(Resolved(s, callId, approved))
  {
    hide Inv, FindCard;
    var i := FindCard(s.messages, ConfirmKey(callId)).value;
    InPlace(s, i, Resolved(s, callId, approved).messages[i]);
  }

  lemma ConfirmPendsByRows(s: State, callId: string, cfg: Config)
    ensures var rows := RowsOf(s, ConfirmKey(callId), cfg);
            HasPendingConfirm(s, callId) <==> rows != [] && DecisionOf(rows[|rows| - 1].card) == Some(Pending)
  {
    hide BoundCard;
    LastRow(s.messages, ConfirmKey(callId), cfg);
    var i := FindCard(s.messages, ConfirmKey(callId));
    if i.Some? {
      KeyStays(s.messages[i.value].variant.card, CardLimit(cfg));
    }
  }

  /** The cards after a decision: the last one shows it, and some may have to go. */
  lemma ResolvedRows(s: State, callId: string, approved: bool, cfg: Config) returns (row: Row)
    requires Inv(s) && FindCard(s.messages, ConfirmKey(callId)).Some?
    ensures var key, u := ConfirmKey(callId), Resolved(s, callId, approved);
            var rows := RowsOf(s, key, cfg);
            && rows != [] && row.id == rows[|rows| - 1].id
            && row.id == s.messages[FindCard(s.messages, key).value].id
            && DecisionOf(row.card) == Some(if approved then Approved else Rejected)
            && RowsOf(ResolveConfirm(s, callId, approved, cfg), key, cfg) ==
               Except(rows[|rows| - 1 := row], Leaving(u, cfg))
  {
    hide Inv, FindCard, EnforceBudget, ResolveConfirm, Leaving, Rows, BoundCard;
    var key, u := ConfirmKey(callId), Resolved(s, callId, approved);
    var i := FindCard(s.messages, key).value;
    var card := u.messages[i].variant.card;
    KeyStays(card, CardLimit(cfg));
    row := Row(s.messages[i].id, Shown(card, cfg));
    LastReplaced(s.messages, key, card, cfg);
    ResolvedKeeps(s, callId, approved);
    ResolveIs(s, callId, approved, cfg);
    CheckedRows(u, key, cfg);
  }

  lemma LastStaysLast(before: seq<Message>, after: seq<Message>, key: CardKey, i: nat)
    requires LastCardAt(before, key, i) && OnlyAt(before, after, i) && i < |before| && IsCard(after[i], key)
    ensures LastCardAt(after, key, i)
  {
    hide KeyOf;
  }

  lemma BoundedLast(s: State, key: CardKey, i: nat, cfg: Config)
    requires LastCardAt(s.messages, key, i)
    ensures LastCardAt(Bounded(s, cfg).messages, key, i)
  {
    hide KeyOf, Bounded;
    BoundedKeys(s, key, cfg);
  }

  lemma LastLands(s: State, i: nat, card: Card, cfg: Config)
    requires LastCardAt(s.messages, KeyOf(card), i)
    ensures var u := s.(messages := WithCard(s.messages, i, card));
            var after := Bounded(u, cfg).messages;
            && OnlyAt(Bounded(s, cfg).messages, after, i) && LastCardAt(after, KeyOf(card), i)
            && after[i].variant == CardOf(Checked(s, card, cfg))
  {
    hide OnlyAt, Bounded, WithCard, Checked, KeyOf;
    OnlyThatCard(s, i, card, cfg);
    BoundedLast(s, KeyOf(card), i, cfg);
    BoundedKeys(s, KeyOf(card), cfg);
    LastStaysLast(Bounded(s, cfg).messages, Bounded(s.(messages := WithCard(s.messages, i, card)), cfg).messages,
                  KeyOf(card), i);
  }

  lemma ResolutionSettles(s: State, callId: string, approved: bool, cfg: Config)
    requires Inv(s) && FindCard(s.messages, ConfirmKey(callId)).Some?
    ensures var i, u := FindCard(s.messages, ConfirmKey(callId)).value, Resolved(s, callId, approved);
            s.messages[i].id !in Leaving(u, cfg) ==>
            !HasPendingConfirm(ResolveConfirm(s, callId, approved, cfg), callId)
  {
    hide Inv, ResolveConfirm, Leaving, Rows, HasPendingConfirm, Resolved, FindCard, Except, Shown;
    var key, u := ConfirmKey(callId), Resolved(s, callId, approved);
    var row := ResolvedRows(s, callId, approved, cfg);
    if row.id !in Leaving(u, cfg) {
      var rows := RowsOf(s, key, cfg);
      LastIsLeft(rows[|rows| - 1 := row], Leaving(u, cfg));
      ConfirmPendsByRows(ResolveConfirm(s, callId, approved, cfg), callId, cfg);
    }
  }

  /**
   A confirmation is answered on the last card of its call, the rest of which stays. What
   is left after that is the list within the field limits, with no other message changed,
   without those who have to go; the call is no longer pending unless the answered card
   itself has to go.
   */
  lemma ConfirmIsAnswered(s: State, callId: string, approved: bool, cfg: Config) returns (after: seq<Message>)
    requires Inv(s) && FindCard(s.messages, ConfirmKey(callId)).Some?
    ensures var key, i := ConfirmKey(callId), FindCard(s.messages, ConfirmKey(callId)).value;
            var card := ConfirmCard(s.messages[i].variant.card.confirm.(
                                      status := if approved then Approved else Rejected));
            var u, t := s.(messages := WithCard(s.messages, i, card)), ResolveConfirm(s, callId, approved, cfg);
            && OnlyAt(Bounded(s, cfg).messages, after, i) && LastCardAt(after, key, i)
            && after[i].variant.card == Checked(s, card, cfg)
            && t.messages == Survivors(after, Leaving(u, cfg))
            && (s.messages[i].id !in Leaving(u, cfg) ==> !HasPendingConfirm(t, callId))
  {
    hide Inv, EnforceBudget, ResolveConfirm, Leaving, OnlyAt, LastCardAt, HasPendingConfirm, Bounded, Survivors,
         FindCard, Checked, WithCard;
    after := Bounded(Resolved(s, callId, approved), cfg).messages;
    FoundIsLast(s.messages, ConfirmKey(callId));
    var i := FindCard(s.messages, ConfirmKey(callId)).value;
    LastLands(s, i, ConfirmCard(s.messages[i].variant.card.confirm.(
                                  status := if approved then Approved else Rejected)), cfg);
    ResolutionSettles(s, callId, approved, cfg);
    ResolvedKeeps(s, callId, approved);
    ResolveIs(s, callId, approved, cfg);
    CheckIsForeseen(Resolved(s, callId, approved), cfg);
  }
}
