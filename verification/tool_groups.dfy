/**
 `message_tool_group.rs`: consecutive tool cards shown as one group, and the table
 of groups a user folded or unfolded by hand.
 */
module ToolGroups {
  import opened Basics
  import opened FencedBlocks
  import opened TranscriptState

  const MAX_TOOL_GROUP_TOGGLES: nat := 512

  // ----- what a group counts -----

  datatype Tally = Tally(
    edit: nat, delete: nat, moved: nat, read: nat, search: nat, fetch: nat, execute: nat, think: nat,
    switchMode: nat, other: map<string, nat>, unnamed: nat)

  const NO_CALLS := Tally(0, 0, 0, 0, 0, 0, 0, 0, 0, map[], 0)

  /** The heading a call is counted under: its action, or its name when the action is undeclared. */
  datatype Heading = ByAction(action: ToolAction) | ByName(name: string) | Unnamed

  function HeadingOf(d: ToolCardData): Heading {
    if d.action != Other then ByAction(d.action)
    else if Trim(d.toolName) == "" then Unnamed
    else ByName(Trim(d.toolName))
  }

  function Count(t: Tally, h: Heading): nat {
    match h
    case ByAction(Edit) => t.edit
    case ByAction(Delete) => t.delete
    case ByAction(Move) => t.moved
    case ByAction(Read) => t.read
    case ByAction(Search) => t.search
    case ByAction(Fetch) => t.fetch
    case ByAction(Execute) => t.execute
    case ByAction(Think) => t.think
    case ByAction(SwitchMode) => t.switchMode
    case ByAction(Other) => 0
    case ByName(name) => if name in t.other then t.other[name] else 0
    case Unnamed => t.unnamed
  }

  /** One more call is one more under its own heading and nowhere else. */
  function Add(t: Tally, d: ToolCardData): (r: Tally)
    ensures forall h :: Count(r, h) == Count(t, h) + if h == HeadingOf(d) then 1 else 0
  {
    match d.action
    case Edit => t.(edit := t.edit + 1)
    case Delete => t.(delete := t.delete + 1)
    case Move => t.(moved := t.moved + 1)
    case Read => t.(read := t.read + 1)
    case Search => t.(search := t.search + 1)
    case Fetch => t.(fetch := t.fetch + 1)
    case Execute => t.(execute := t.execute + 1)
    case Think => t.(think := t.think + 1)
    case SwitchMode => t.(switchMode := t.switchMode + 1)
    case Other =>
      var name := Trim(d.toolName);
      if name == "" then t.(unnamed := t.unnamed + 1)
      else t.(other := t.other[name := (if name in t.other then t.other[name] else 0) + 1])
  }

  // ----- groups -----

  predicate IsToolCard(m: Message) {
    m.variant.CardOf? && m.variant.card.ToolCard?
  }

  function ToolOf(m: Message): ToolCardData
    requires IsToolCard(m)
  {
    m.variant.card.tool
  }

  datatype Group = Group(first: nat, tally: Tally, added: nat, removed: nat, running: bool, members: seq<Message>)

  datatype Item = Single(message: Message) | ToolGroup(group: Group)

  /** A message's own element, or the group named after its first message. */
  datatype ElementId = MessageElement(id: nat) | GroupElement(firstId: nat)

  function ElementOf(item: Item): ElementId {
    match item
    case Single(m) => MessageElement(m.id)
    case ToolGroup(b) => GroupElement(b.first)
  }

  function SumAdded(files: seq<FileStat>): nat {
    if files == [] then 0 else files[0].added + SumAdded(files[1..])
  }

  function SumRemoved(files: seq<FileStat>): nat {
    if files == [] then 0 else files[0].removed + SumRemoved(files[1..])
  }

  function PushTo(b: Group, m: Message): Group
    requires IsToolCard(m)
  {
    var d := ToolOf(m);
    Group(b.first, Add(b.tally, d), b.added + SumAdded(d.fileChanges), b.removed + SumRemoved(d.fileChanges),
          b.running || d.running, b.members + [m])
  }

  /** The group of a whole run of tool cards. */
  function GroupOf(run: seq<Message>): Group
    requires run != [] && forall i :: 0 <= i < |run| ==> IsToolCard(run[i])
  {
    if |run| == 1 then PushTo(Group(run[0].id, NO_CALLS, 0, 0, false, []), run[0])
    else PushTo(GroupOf(run[..|run| - 1]), run[|run| - 1])
  }

  /** How many tool cards the list starts with. */
  function RunLength(ms: seq<Message>): (n: nat)
    ensures n <= |ms| && forall i :: 0 <= i < n ==> IsToolCard(ms[i])
    ensures n < |ms| ==> !IsToolCard(ms[n])
  {
    if ms == [] || !IsToolCard(ms[0]) then 0 else 1 + RunLength(ms[1..])
  }

  function Items(ms: seq<Message>): seq<Item>
    decreases |ms|
  {
    if ms == [] then []
    else if !IsToolCard(ms[0]) then [Single(ms[0])] + Items(ms[1..])
    else
      var n := RunLength(ms);
      [ToolGroup(GroupOf(ms[..n]))] + Items(ms[n..])
  }

  lemma GroupSnoc(run: seq<Message>, m: Message)
    requires run != [] && IsToolCard(m) && forall i :: 0 <= i < |run| ==> IsToolCard(run[i])
    ensures GroupOf(run + [m]) == PushTo(GroupOf(run), m)
  {
    assert (run + [m])[..|run|] == run;
  }

  lemma RunStep(ms: seq<Message>, i: nat)
    requires i < |ms| && IsToolCard(ms[i])
    ensures RunLength(ms[i..]) == 1 + RunLength(ms[i + 1..])
  {
    TailStep(ms, i);
  }

  /** The inner loop: one group from a first tool card on. */
  method CollectGroup(ms: seq<Message>, start: nat) returns (group: Group, index: nat)
    requires start < |ms| && IsToolCard(ms[start])
    ensures index == start + RunLength(ms[start..]) <= |ms|
    ensures group == GroupOf(ms[start..index])
  {
    hide PushTo, Add;
    group := PushTo(Group(ms[start].id, NO_CALLS, 0, 0, false, []), ms[start]);
    index := start + 1;
    assert ms[start..index] == [ms[start]];
    RunStep(ms, start);
    while index < |ms| && IsToolCard(ms[index])
      invariant start < index <= |ms|
      invariant forall i :: start <= i < index ==> IsToolCard(ms[i])
      invariant group == GroupOf(ms[start..index])
      invariant RunLength(ms[start..]) == index - start + RunLength(ms[index..])
    {
      RunStep(ms, index);
      GroupSnoc(ms[start..index], ms[index]);
      SliceSnoc(ms, start, index);
      group := PushTo(group, ms[index]);
      index := index + 1;
    }
  }

  /** The number of messages in the first item. */
  function FirstLength(ms: seq<Message>): (n: nat)
    requires ms != []
    ensures 1 <= n <= |ms|
  {
    if IsToolCard(ms[0]) then RunLength(ms) else 1
  }

  function FirstOf(ms: seq<Message>): Item
    requires ms != []
  {
    if IsToolCard(ms[0]) then ToolGroup(GroupOf(ms[..RunLength(ms)])) else Single(ms[0])
  }

  lemma ItemsStep(ms: seq<Message>)
    requires ms != []
    ensures Items(ms) == [FirstOf(ms)] + Items(ms[FirstLength(ms)..])
  {
  }

  /** The loop body: a group, or a single message. */
  method NextItem(ms: seq<Message>, start: nat) returns (item: Item, index: nat)
    requires start < |ms|
    ensures item == FirstOf(ms[start..]) && index == start + FirstLength(ms[start..]) <= |ms|
  {
    if !IsToolCard(ms[start]) {
      return Single(ms[start]), start + 1;
    }
    var group;
    group, index := CollectGroup(ms, start);
    SlicesMeet(ms, start, index);
    item := ToolGroup(group);
  }

  method RenderItems(ms: seq<Message>) returns (items: seq<Item>)
    ensures items == Items(ms)
  {
    items := [];
    var index := 0;
    ghost var rest := Items(ms);
    assert ms[0..] == ms;
    while index < |ms|
      invariant 0 <= index <= |ms| && rest == Items(ms[index..])
      invariant items + rest == Items(ms)
    {
      ItemsStep(ms[index..]);
      var start := index;
      var item;
      item, index := NextItem(ms, start);
      SlicesMeet(ms, start, index);
      ghost var later := Items(ms[index..]);
      Shift(items, item, later);
      items := items + [item];
      rest := later;
    }
  }

  // ----- grouping is a partition into maximal runs -----

  function MembersOf(item: Item): seq<Message> {
    match item
    case Single(m) => [m]
    case ToolGroup(b) => b.members
  }

  function Flatten(items: seq<Item>): seq<Message> {
    if items == [] then [] else MembersOf(items[0]) + Flatten(items[1..])
  }

  lemma {:induction false} GroupMembers(run: seq<Message>)
    requires run != [] && forall i :: 0 <= i < |run| ==> IsToolCard(run[i])
    ensures GroupOf(run).members == run && GroupOf(run).first == run[0].id
  {
    if |run| > 1 {
      GroupMembers(run[..|run| - 1]);
      assert run == run[..|run| - 1] + [run[|run| - 1]];
    }
  }

  lemma FirstMembers(ms: seq<Message>)
    requires ms != []
    ensures MembersOf(FirstOf(ms)) == ms[..FirstLength(ms)]
  {
    if IsToolCard(ms[0]) {
      GroupMembers(ms[..RunLength(ms)]);
    }
  }

  lemma FlattenCons(item: Item, rest: seq<Item>)
    ensures Flatten([item] + rest) == MembersOf(item) + Flatten(rest)
  {
    assert ([item] + rest)[1..] == rest;
  }

  /** Flattening the items gives the messages back. */
  lemma {:induction false} ItemsFlatten(ms: seq<Message>)
    ensures Flatten(Items(ms)) == ms
    decreases |ms|
  {
    hide Items, FirstOf, FirstLength, Flatten;
    if ms != [] {
      var n := FirstLength(ms);
      ItemsFlatten(ms[n..]);
      ItemsStep(ms);
      FlattenCons(FirstOf(ms), Items(ms[n..]));
      FirstMembers(ms);
      assert ms == ms[..n] + ms[n..];
    } else {
      NothingToFlatten();
    }
  }

  lemma NothingToFlatten()
    ensures Flatten(Items([])) == []
  {
  }

  /** A group holds tool cards only, a single message is none, and no group touches another. */
  lemma {:induction false} RunsAreMaximal(ms: seq<Message>, i: nat)
    requires i < |Items(ms)|
    ensures var items := Items(ms);
            && (items[i].Single? ==> !IsToolCard(items[i].message))
            && (items[i].ToolGroup? ==>
                  && items[i].group.members != []
                  && (forall m :: m in items[i].group.members ==> IsToolCard(m))
                  && items[i].group == GroupOf(items[i].group.members)
                  && (i + 1 < |items| ==> items[i + 1].Single?))
    decreases |ms|
  {
    var n := if IsToolCard(ms[0]) then RunLength(ms) else 1;
    assert Items(ms)[1..] == Items(ms[n..]);
    if i > 0 {
      RunsAreMaximal(ms[n..], i - 1);
    } else if IsToolCard(ms[0]) {
      GroupMembers(ms[..n]);
      assert n < |ms| ==> ms[n..][0] == ms[n];
    }
  }

  // ----- what a group's head says -----

  function CountHeading(run: seq<Message>, h: Heading): nat
    requires forall i :: 0 <= i < |run| ==> IsToolCard(run[i])
  {
    if run == [] then 0
    else CountHeading(run[..|run| - 1], h) + if HeadingOf(ToolOf(run[|run| - 1])) == h then 1 else 0
  }

  /** All files changed by the calls of a run, in order. */
  function FilesOf(run: seq<Message>): seq<FileStat>
    requires forall i :: 0 <= i < |run| ==> IsToolCard(run[i])
  {
    if run == [] then [] else FilesOf(run[..|run| - 1]) + ToolOf(run[|run| - 1]).fileChanges
  }

  function Total(numbers: seq<nat>): nat {
    if numbers == [] then 0 else Total(numbers[..|numbers| - 1]) + numbers[|numbers| - 1]
  }

  function AddedIn(files: seq<FileStat>): seq<nat> {
    seq(|files|, i requires 0 <= i < |files| => files[i].added)
  }

  function RemovedIn(files: seq<FileStat>): seq<nat> {
    seq(|files|, i requires 0 <= i < |files| => files[i].removed)
  }

  lemma {:induction false} TotalConcat(a: seq<nat>, b: seq<nat>)
    ensures Total(a + b) == Total(a) + Total(b)
    decreases |b|
  {
    if b == [] {
      assert a + b == a;
    } else {
      TotalConcat(a, b[..|b| - 1]);
      assert (a + b)[..|a + b| - 1] == a + b[..|b| - 1];
    }
  }

  lemma {:induction false} SumsAreTotals(files: seq<FileStat>)
    ensures SumAdded(files) == Total(AddedIn(files)) && SumRemoved(files) == Total(RemovedIn(files))
  {
    if files != [] {
      SumsAreTotals(files[1..]);
      assert AddedIn(files) == [files[0].added] + AddedIn(files[1..]);
      assert RemovedIn(files) == [files[0].removed] + RemovedIn(files[1..]);
      TotalConcat([files[0].added], AddedIn(files[1..]));
      TotalConcat([files[0].removed], RemovedIn(files[1..]));
      OneTotal(files[0].added);
      OneTotal(files[0].removed);
    }
  }

  lemma OneTotal(n: nat)
    ensures Total([n]) == n
  {
    assert [n][..0] == [];
  }

  lemma FilesJoin(a: seq<FileStat>, b: seq<FileStat>)
    ensures Total(AddedIn(a + b)) == Total(AddedIn(a)) + Total(AddedIn(b))
    ensures Total(RemovedIn(a + b)) == Total(RemovedIn(a)) + Total(RemovedIn(b))
  {
    assert AddedIn(a + b) == AddedIn(a) + AddedIn(b);
    assert RemovedIn(a + b) == RemovedIn(a) + RemovedIn(b);
    TotalConcat(AddedIn(a), AddedIn(b));
    TotalConcat(RemovedIn(a), RemovedIn(b));
  }

  lemma {:induction false} HeadCounts(run: seq<Message>)
    requires run != [] && forall i :: 0 <= i < |run| ==> IsToolCard(run[i])
    ensures forall h :: Count(GroupOf(run).tally, h) == CountHeading(run, h)
  {
    hide HeadingOf;
    var front := run[..|run| - 1];
    if |run| == 1 {
      assert front == [];
      assert forall h :: Count(NO_CALLS, h) == 0;
    } else {
      HeadCounts(front);
    }
  }

  lemma {:induction false} HeadTotals(run: seq<Message>)
    requires run != [] && forall i :: 0 <= i < |run| ==> IsToolCard(run[i])
    ensures GroupOf(run).added == Total(AddedIn(FilesOf(run)))
    ensures GroupOf(run).removed == Total(RemovedIn(FilesOf(run)))
  {
    hide GroupOf, Total, SumAdded, SumRemoved, AddedIn, RemovedIn;
    var front, files := run[..|run| - 1], ToolOf(run[|run| - 1]).fileChanges;
    HeadStep(run);
    FilesJoin(FilesOf(front), files);
    SumsAreTotals(files);
    if |run| == 1 {
      assert FilesOf(front) == [];
      NoFiles();
    } else {
      HeadTotals(front);
    }
  }

  lemma NoFiles()
    ensures Total(AddedIn([])) == 0 && Total(RemovedIn([])) == 0
  {
  }

  lemma HeadStep(run: seq<Message>)
    requires run != [] && forall i :: 0 <= i < |run| ==> IsToolCard(run[i])
    ensures var b, front, files := GroupOf(run), run[..|run| - 1], ToolOf(run[|run| - 1]).fileChanges;
            && b.added == (if |run| == 1 then 0 else GroupOf(front).added) + SumAdded(files)
            && b.removed == (if |run| == 1 then 0 else GroupOf(front).removed) + SumRemoved(files)
  {
    hide Add, SumAdded, SumRemoved;
  }

  lemma {:induction false} HeadRuns(run: seq<Message>)
    requires run != [] && forall i :: 0 <= i < |run| ==> IsToolCard(run[i])
    ensures GroupOf(run).running <==> exists i :: 0 <= i < |run| && ToolOf(run[i]).running
  {
    hide Add;
    var front := run[..|run| - 1];
    if |run| > 1 {
      HeadRuns(front);
      assert forall i :: 0 <= i < |front| ==> front[i] == run[i];
      if GroupOf(front).running {
        var i :| 0 <= i < |front| && ToolOf(front[i]).running;
        assert ToolOf(run[i]).running;
      }
      if exists i :: 0 <= i < |run| && ToolOf(run[i]).running {
        var i :| 0 <= i < |run| && ToolOf(run[i]).running;
        assert i < |front| ==> ToolOf(front[i]).running;
      }
    }
  }

  /** Counts per heading, line totals and the running mark are those of the members. */
  lemma HeadTellsMembers(run: seq<Message>)
    requires run != [] && forall i :: 0 <= i < |run| ==> IsToolCard(run[i])
    ensures var b := GroupOf(run);
            && (forall h :: Count(b.tally, h) == CountHeading(run, h))
            && b.added == Total(AddedIn(FilesOf(run))) && b.removed == Total(RemovedIn(FilesOf(run)))
            && (b.running <==> exists i :: 0 <= i < |run| && ToolOf(run[i]).running)
  {
    hide GroupOf, Count, CountHeading, Total, FilesOf;
    HeadCounts(run);
    HeadTotals(run);
    HeadRuns(run);
  }

  // ----- growing lists -----

  function Elements(items: seq<Item>): seq<ElementId> {
    if items == [] then [] else [ElementOf(items[0])] + Elements(items[1..])
  }

  lemma {:induction false} RunGrows(a: seq<Message>, b: seq<Message>)
    ensures RunLength(a) < |a| ==> RunLength(a + b) == RunLength(a)
    ensures RunLength(a) == |a| ==> RunLength(a + b) >= |a|
  {
    if a != [] && IsToolCard(a[0]) {
      RunGrows(a[1..], b);
      assert (a + b)[1..] == a[1..] + b;
    }
  }

  lemma FirstItem(ms: seq<Message>)
    requires ms != []
    ensures Items(ms) != [] && Items(ms)[1..] == Items(ms[FirstLength(ms)..])
    ensures ElementOf(Items(ms)[0]) == if IsToolCard(ms[0]) then GroupElement(ms[0].id) else MessageElement(ms[0].id)
  {
    ItemsStep(ms);
    if IsToolCard(ms[0]) {
      GroupMembers(ms[..RunLength(ms)]);
    }
  }

  lemma FirstLengthStays(a: seq<Message>, b: seq<Message>)
    requires a != [] && (FirstLength(a) < |a| || !IsToolCard(a[0]))
    ensures FirstLength(a + b) == FirstLength(a) && FirstOf(a + b) == FirstOf(a)
  {
    RunGrows(a, b);
    PrefixSlices(a, b, FirstLength(a));
  }

  /** Unless the first item takes up the whole list, more messages do not reach it. */
  lemma FirstItemStays(a: seq<Message>, b: seq<Message>)
    requires a != [] && (FirstLength(a) < |a| || !IsToolCard(a[0]))
    ensures FirstLength(a + b) == FirstLength(a) && Items(a + b)[0] == Items(a)[0]
    ensures (a + b)[FirstLength(a)..] == a[FirstLength(a)..] + b
  {
    FirstLengthStays(a, b);
    ItemsStep(a);
    ItemsStep(a + b);
    PrefixSlices(a, b, FirstLength(a));
  }

  /** Appending messages changes no element id: those of the shorter list come first. */
  lemma {:induction false} ElementsAreStable(a: seq<Message>, b: seq<Message>)
    ensures Elements(Items(a)) <= Elements(Items(a + b))
    decreases |a|
  {
    if a != [] {
      FirstItem(a);
      FirstItem(a + b);
      assert (a + b)[0] == a[0];
      if FirstLength(a) < |a| || !IsToolCard(a[0]) {
        FirstItemStays(a, b);
        ElementsAreStable(a[FirstLength(a)..], b);
      } else {
        assert Items(a[FirstLength(a)..]) == [];
      }
    }
  }

  /** All items but the last stay the same as a whole. */
  lemma {:induction false} ItemsAreStable(a: seq<Message>, b: seq<Message>)
    requires a != []
    ensures Items(a) != [] && Items(a)[..|Items(a)| - 1] <= Items(a + b)
    decreases |a|
  {
    FirstItem(a);
    FirstItem(a + b);
    var rest := a[FirstLength(a)..];
    if rest != [] {
      FirstItemStays(a, b);
      ItemsAreStable(rest, b);
      var k := |Items(a)| - 1;
      assert Items(a)[..k] == [Items(a)[0]] + Items(rest)[..k - 1];
      assert Items(a + b) == [Items(a)[0]] + Items(rest + b);
    } else {
      assert Items(rest) == [];
    }
  }

  // ----- folding by hand -----

  datatype Toggle = Expanded | Collapsed

  datatype Choice = Choice(id: string, toggle: Toggle)

  function WithoutChoice(table: seq<Choice>, id: string): seq<Choice> {
    if table == [] then []
    else if table[0].id == id then WithoutChoice(table[1..], id)
    else [table[0]] + WithoutChoice(table[1..], id)
  }

  function Chosen(table: seq<Choice>, c: Choice, max: nat): seq<Choice> {
    Last(WithoutChoice(table, c.id) + [c], max)
  }

  function Lookup(table: seq<Choice>, id: string): Option<Toggle> {
    if table == [] then None
    else if table[0].id == id then Some(table[0].toggle)
    else Lookup(table[1..], id)
  }

  function IsExpanded(table: seq<Choice>, id: string, running: bool): bool {
    match Lookup(table, id)
    case Some(t) => t.Expanded?
    case None => running
  }

  function Opposite(showing: bool): Toggle {
    if showing then Collapsed else Expanded
  }

  class ToggleTable {
    var toggles: seq<Choice>

    constructor ()
      ensures toggles == []
    {
      toggles := [];
    }

    method Find(id: string) returns (toggle: Option<Toggle>)
      ensures toggle == Lookup(toggles, id)
    {
      for i := 0 to |toggles|
        invariant Lookup(toggles, id) == Lookup(toggles[i..], id)
      {
        assert toggles[i..][0] == toggles[i] && toggles[i..][1..] == toggles[i + 1..];
        if toggles[i].id == id {
          return Some(toggles[i].toggle);
        }
      }
      return None;
    }

    method Expanded(id: string, running: bool) returns (expanded: bool)
      ensures expanded == IsExpanded(toggles, id, running)
    {
      var toggle := Find(id);
      match toggle {
        case Some(t) => expanded := t.Expanded?;
        case None => expanded := running;
      }
    }

    method Kept(id: string) returns (kept: seq<Choice>)
      ensures kept == WithoutChoice(toggles, id)
    {
      kept := [];
      ghost var rest := WithoutChoice(toggles, id);
      for i := 0 to |toggles|
        invariant rest == WithoutChoice(toggles[i..], id)
        invariant kept + rest == WithoutChoice(toggles, id)
      {
        TailStep(toggles, i);
        if toggles[i].id != id {
          Shift(kept, toggles[i], WithoutChoice(toggles[i + 1..], id));
          kept := kept + [toggles[i]];
        }
        rest := WithoutChoice(toggles[i + 1..], id);
      }
    }

    method Flip(id: string, showing: bool)
      modifies this
      ensures toggles == Chosen(old(toggles), Choice(id, Opposite(showing)), MAX_TOOL_GROUP_TOGGLES)
    {
      var next := if showing then Collapsed else Toggle.Expanded;
      var kept := Kept(id);
      toggles := kept + [Choice(id, next)];
      ghost var all := toggles;
      while |toggles| > MAX_TOOL_GROUP_TOGGLES
        invariant |toggles| >= Min(|all|, MAX_TOOL_GROUP_TOGGLES) && |toggles| <= |all|
        invariant toggles == all[|all| - |toggles|..]
      {
        toggles := toggles[1..];
      }
    }
  }

  /** All choices ever made, newest last, the latest one of each group only. */
  function Unbounded(choices: seq<Choice>): seq<Choice> {
    if choices == [] then []
    else
      var c := choices[|choices| - 1];
      WithoutChoice(Unbounded(choices[..|choices| - 1]), c.id) + [c]
  }

  function Table(choices: seq<Choice>, max: nat): seq<Choice> {
    if choices == [] then [] else Chosen(Table(choices[..|choices| - 1], max), choices[|choices| - 1], max)
  }

  /** The latest choice for a group. */
  function Latest(choices: seq<Choice>, id: string): Option<Toggle> {
    if choices == [] then None
    else if choices[|choices| - 1].id == id then Some(choices[|choices| - 1].toggle)
    else Latest(choices[..|choices| - 1], id)
  }

  ghost predicate OncePerGroup(table: seq<Choice>) {
    forall i, j :: 0 <= i < j < |table| ==> table[i].id != table[j].id
  }

  lemma {:induction false} WithoutMembers(table: seq<Choice>, id: string)
    ensures forall c :: c in WithoutChoice(table, id) <==> c in table && c.id != id
  {
    if table != [] {
      WithoutMembers(table[1..], id);
      assert table == [table[0]] + table[1..];
    }
  }

  lemma {:induction false} WithoutOnce(table: seq<Choice>, id: string)
    requires OncePerGroup(table)
    ensures OncePerGroup(WithoutChoice(table, id))
  {
    if table != [] {
      WithoutOnce(table[1..], id);
      var rest := WithoutChoice(table[1..], id);
      WithoutMembers(table[1..], id);
      forall j | 0 <= j < |rest| ensures rest[j].id != table[0].id {
        assert rest[j] in table[1..];
      }
    }
  }

  lemma {:induction false} WithoutLength(table: seq<Choice>, id: string)
    requires OncePerGroup(table)
    ensures |table| - 1 <= |WithoutChoice(table, id)| <= |table|
    ensures (forall i :: 0 <= i < |table| ==> table[i].id != id) ==> WithoutChoice(table, id) == table
  {
    if table != [] {
      WithoutLength(table[1..], id);
      assert table == [table[0]] + table[1..];
    }
  }

  lemma WithoutFacts(table: seq<Choice>, id: string)
    requires OncePerGroup(table)
    ensures OncePerGroup(WithoutChoice(table, id))
    ensures forall c :: c in WithoutChoice(table, id) <==> c in table && c.id != id
    ensures |table| - 1 <= |WithoutChoice(table, id)| <= |table|
  {
    WithoutMembers(table, id);
    WithoutOnce(table, id);
    WithoutLength(table, id);
  }

  lemma {:induction false} WithoutConcat(a: seq<Choice>, b: seq<Choice>, id: string)
    ensures WithoutChoice(a + b, id) == WithoutChoice(a, id) + WithoutChoice(b, id)
  {
    if a == [] {
      assert a + b == b;
    } else {
      WithoutConcat(a[1..], b, id);
      PrefixSlices(a, b, 1);
      ConsConcat(a[0], WithoutChoice(a[1..], id), WithoutChoice(b, id));
    }
  }

  lemma LastOfConcat(x: seq<Choice>, y: seq<Choice>, n: nat)
    requires n <= |y|
    ensures Last(x + y, n) == Last(y, n)
  {
  }

  /** Dropping a choice from the newest part or from the whole leaves the same newest entries. */
  lemma NewestWithout(a: seq<Choice>, b: seq<Choice>, id: string)
    requires OncePerGroup(b) && b != []
    ensures Last(WithoutChoice(b, id), |b| - 1) == Last(WithoutChoice(a + b, id), |b| - 1)
  {
    WithoutConcat(a, b, id);
    WithoutFacts(b, id);
    LastOfConcat(WithoutChoice(a, id), WithoutChoice(b, id), |b| - 1);
  }

  lemma LastSnoc(s: seq<Choice>, c: Choice, max: nat)
    requires max >= 1
    ensures Last(s + [c], max) == Last(s, max - 1) + [c]
  {
  }

  lemma ChosenOverPieces(a: seq<Choice>, b: seq<Choice>, c: Choice)
    requires OncePerGroup(b) && b != []
    ensures Chosen(b, c, |b|) == Chosen(a + b, c, |b|)
  {
    NewestWithout(a, b, c.id);
    LastSnoc(WithoutChoice(b, c.id), c, |b|);
    LastSnoc(WithoutChoice(a + b, c.id), c, |b|);
  }

  /** Cutting to the newest before a choice or after it comes to the same. */
  lemma CutBeforeChoosing(table: seq<Choice>, c: Choice, max: nat)
    requires OncePerGroup(table) && max >= 1
    ensures Chosen(Last(table, max), c, max) == Chosen(table, c, max)
  {
    if |table| > max {
      var a, b := table[..|table| - max], table[|table| - max..];
      assert table == a + b;
      BackOnce(table, |table| - max);
      ChosenOverPieces(a, b, c);
    }
  }

  lemma BackOnce(table: seq<Choice>, n: nat)
    requires OncePerGroup(table) && n <= |table|
    ensures OncePerGroup(table[n..])
  {
  }

  lemma {:induction false} UnboundedOnce(choices: seq<Choice>)
    ensures OncePerGroup(Unbounded(choices))
  {
    if choices != [] {
      var front, c := choices[..|choices| - 1], choices[|choices| - 1];
      UnboundedOnce(front);
      WithoutFacts(Unbounded(front), c.id);
    }
  }

  /** The bounded table is the newest part of the unbounded one, one entry a group. */
  lemma {:induction false} TableIsRecent(choices: seq<Choice>, max: nat)
    requires max >= 1
    ensures Table(choices, max) == Last(Unbounded(choices), max)
    ensures |Table(choices, max)| <= max && OncePerGroup(Table(choices, max))
  {
    UnboundedOnce(choices);
    if choices != [] {
      var front, c := choices[..|choices| - 1], choices[|choices| - 1];
      TableIsRecent(front, max);
      UnboundedOnce(front);
      CutBeforeChoosing(Unbounded(front), c, max);
    }
  }

  lemma {:induction false} LookupFinds(table: seq<Choice>, id: string)
    requires OncePerGroup(table)
    ensures forall i :: 0 <= i < |table| && table[i].id == id ==> Lookup(table, id) == Some(table[i].toggle)
    ensures (forall i :: 0 <= i < |table| ==> table[i].id != id) ==> Lookup(table, id).None?
  {
    if table != [] {
      LookupFinds(table[1..], id);
      assert table == [table[0]] + table[1..];
    }
  }

  lemma {:induction false} UnboundedHoldsLatest(choices: seq<Choice>, id: string)
    ensures Lookup(Unbounded(choices), id) == Latest(choices, id)
  {
    UnboundedOnce(choices);
    LookupFinds(Unbounded(choices), id);
    if choices != [] {
      var front, c := choices[..|choices| - 1], choices[|choices| - 1];
      UnboundedHoldsLatest(front, id);
      UnboundedOnce(front);
      WithoutFacts(Unbounded(front), c.id);
      LookupFinds(Unbounded(front), id);
      var all := Unbounded(choices);
      if c.id == id {
        assert all[|all| - 1] == c;
      } else if Latest(front, id).Some? {
        var t := Choice(id, Latest(front, id).value);
        InTable(Unbounded(front), id);
        assert t in WithoutChoice(Unbounded(front), c.id);
        assert t in all;
      } else {
        InTable(Unbounded(front), id);
        forall i | 0 <= i < |all| ensures all[i].id != id {
          assert i < |all| - 1 ==> all[i] in WithoutChoice(Unbounded(front), c.id);
        }
      }
    }
  }

  lemma {:induction false} InTable(table: seq<Choice>, id: string)
    ensures Lookup(table, id).Some? <==> exists i :: 0 <= i < |table| && table[i].id == id
    ensures Lookup(table, id).Some? ==> Choice(id, Lookup(table, id).value) in table
  {
    if table != [] {
      InTable(table[1..], id);
      if Lookup(table, id).Some? && table[0].id != id {
        var i :| 0 <= i < |table[1..]| && table[1..][i].id == id;
        assert table[i + 1].id == id;
      }
      if i :| 0 <= i < |table| && table[i].id == id && i > 0 {
        assert table[1..][i - 1].id == id;
      }
    }
  }

  /**
   A group shows what was last chosen for it by hand, as long as fewer than 512 other
   groups were chosen since; otherwise it shows whether it is running.
   */
  lemma ShownIsLatestChoice(choices: seq<Choice>, id: string, running: bool)
    ensures var table := Table(choices, MAX_TOOL_GROUP_TOGGLES);
            var recent := Last(Unbounded(choices), MAX_TOOL_GROUP_TOGGLES);
            IsExpanded(table, id, running) ==
            if exists i :: 0 <= i < |recent| && recent[i].id == id
            then Latest(choices, id) == Some(Expanded) else running
  {
    TableIsRecent(choices, MAX_TOOL_GROUP_TOGGLES);
    UnboundedOnce(choices);
    UnboundedHoldsLatest(choices, id);
    var all := Unbounded(choices);
    var recent := Last(all, MAX_TOOL_GROUP_TOGGLES);
    LookupFinds(recent, id);
    LookupFinds(all, id);
    if i :| 0 <= i < |recent| && recent[i].id == id {
      assert all[|all| - |recent| + i] == recent[i];
    }
  }

  /** Flipping what is shown shows the opposite, whether or not the group is running. */
  lemma FlipShowsOpposite(table: seq<Choice>, id: string, running: bool, later: bool)
    requires OncePerGroup(table)
    ensures var showing := IsExpanded(table, id, running);
            IsExpanded(Chosen(table, Choice(id, Opposite(showing)), MAX_TOOL_GROUP_TOGGLES), id, later) == !showing
  {
    var c := Choice(id, Opposite(IsExpanded(table, id, running)));
    WithoutFacts(table, id);
    var all := WithoutChoice(table, id) + [c];
    forall i, j | 0 <= i < j < |all| ensures all[i].id != all[j].id {
      assert all[i] in WithoutChoice(table, id);
    }
    var after := Last(all, MAX_TOOL_GROUP_TOGGLES);
    assert after[|after| - 1] == c;
    LookupFinds(after, id);
  }
}
