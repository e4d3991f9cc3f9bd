/** Context assembly: zones, stable order within zones, and the budget that drops middle blocks. */
module ContextBuilder {
  import opened Text
  import opened Utf8

  const IMAGE_TOKEN_BUDGET := 1600

  datatype Part = TextPart(text: seq<byte>) | ImagePart

  /** A message is multi-part content or anything else, of which only the JSON form matters here. */
  datatype Message = MultiPart(parts: seq<Part>) | Plain(json: seq<byte>)

  datatype Anchor = Head(position: nat) | Middle(position: nat) | Tail(position: nat)

  datatype Block = Block(messages: seq<Message>, anchor: Anchor)

  datatype Budget = Budget(total: nat, headSize: nat, tailSize: nat)

  // ----- the anchor order -----

  function ZonePriority(a: Anchor): nat {
    match a
    case Head(_) => 0
    case Middle(_) => 1
    case Tail(_) => 2
  }

  datatype Ordering = Less | Equal | Greater

  function CompareNat(a: nat, b: nat): Ordering {
    if a < b then Less else if a == b then Equal else Greater
  }

  function Reverse(o: Ordering): Ordering {
    match o
    case Less => Greater
    case Equal => Equal
    case Greater => Less
  }

  /** `Ord::cmp`: the reversed comparison of (zone priority, position). */
  function Compare(a: Anchor, b: Anchor): Ordering {
    var zones := CompareNat(ZonePriority(a), ZonePriority(b));
    Reverse(if zones == Equal then CompareNat(a.position, b.position) else zones)
  }

  /** `a` ranks at least as high as `b`: it is kept rather than dropped. */
  predicate RanksAtOrAbove(a: Anchor, b: Anchor) {
    Compare(a, b) != Less
  }

  /** The comparison is a total order that agrees with equality; every head outranks every middle, every middle
      every tail. */
  lemma AnchorOrderIsTotal(a: Anchor, b: Anchor, c: Anchor)
    ensures Compare(a, b) == Equal <==> a == b
    ensures Compare(b, a) == Reverse(Compare(a, b))
    ensures RanksAtOrAbove(a, b) && RanksAtOrAbove(b, c) ==> RanksAtOrAbove(a, c)
    ensures (a.Head? && !b.Head?) || (a.Middle? && b.Tail?) ==> Compare(a, b) == Greater
  {
  }

  // ----- tokens -----

  function PartTokens(p: Part): nat {
    if p.TextPart? then |p.text| / 4 else IMAGE_TOKEN_BUDGET
  }

  function Sum<T>(xs: seq<T>, f: T -> nat): nat {
    if xs == [] then 0 else Sum(xs[..|xs| - 1], f) + f(xs[|xs| - 1])
  }

  function EstimateTokens(m: Message): nat {
    match m
    case MultiPart(parts) => Sum(parts, PartTokens)
    case Plain(json) => |json| / 4
  }

  function BlockTokens(b: Block): nat {
    Sum(b.messages, EstimateTokens)
  }

  function MessagesOf(b: Block): seq<Message> {
    b.messages
  }

  function SaturatingSub(a: nat, b: nat): nat {
    if a < b then 0 else a - b
  }

  function MiddleBudget(g: Budget): nat {
    SaturatingSub(SaturatingSub(g.total, g.headSize), g.tailSize)
  }

  /** What the reserves leave of the total. */
  function Room(g: Budget): nat {
    if g.headSize + g.tailSize <= g.total then g.total - (g.headSize + g.tailSize) else 0
  }

  lemma MiddleBudgetIsRoom(g: Budget)
    ensures MiddleBudget(g) == Room(g)
  {
  }

  function TextLength(p: Part): nat {
    if p.TextPart? then |p.text| else 0
  }

  function Images(p: Part): nat {
    if p.ImagePart? then 1 else 0
  }

  /** A message counts a token for each four bytes of text, rounded down for each part, and a fixed number for
      each image. */
  lemma {:induction false} EstimateBounds(parts: seq<Part>)
    ensures var text, images := Sum(parts, TextLength), Sum(parts, Images);
            var tokens := EstimateTokens(MultiPart(parts)) - 1600 * images;
            4 * tokens <= text <= 4 * tokens + 3 * (|parts| - images)
  {
    if parts != [] {
      EstimateBounds(parts[..|parts| - 1]);
    }
  }

  /** Any other message counts a token for each four bytes of its JSON form. */
  lemma PlainEstimate(json: seq<byte>)
    ensures 4 * EstimateTokens(Plain(json)) <= |json| < 4 * EstimateTokens(Plain(json)) + 4
  {
  }

  lemma {:induction false} SumConcat<T>(xs: seq<T>, ys: seq<T>, f: T -> nat)
    ensures Sum(xs + ys, f) == Sum(xs, f) + Sum(ys, f)
  {
    if ys == [] {
      assert xs + ys == xs;
    } else {
      SumConcat(xs, ys[..|ys| - 1], f);
      assert (xs + ys)[..|xs + ys| - 1] == xs + ys[..|ys| - 1];
    }
  }

  /** The estimate of the messages of some blocks is the sum of the block estimates. */
  lemma {:induction false} TokensOfBlocks(blocks: seq<Block>)
    ensures Sum(Joined(blocks, MessagesOf), EstimateTokens) == Sum(blocks, BlockTokens)
  {
    if blocks != [] {
      var p, b := blocks[..|blocks| - 1], blocks[|blocks| - 1];
      TokensOfBlocks(p);
      SumConcat(Joined(p, MessagesOf), b.messages, EstimateTokens);
    }
  }

  // ----- stable sorting by position -----

  /** Puts `b` behind every block at or before its position. */
  function Insert(sorted: seq<Block>, b: Block): seq<Block> {
    if sorted == [] || sorted[|sorted| - 1].anchor.position <= b.anchor.position then sorted + [b]
    else Insert(sorted[..|sorted| - 1], b) + [sorted[|sorted| - 1]]
  }

  /** `sort_by_key` on the position: Rust's sort is stable. */
  function StableSort(blocks: seq<Block>): seq<Block> {
    if blocks == [] then [] else Insert(StableSort(blocks[..|blocks| - 1]), blocks[|blocks| - 1])
  }

  predicate Sorted(blocks: seq<Block>) {
    forall i, j :: 0 <= i < j < |blocks| ==> blocks[i].anchor.position <= blocks[j].anchor.position
  }

  function OnlyAt(p: nat): Block -> seq<Block> {
    (b: Block) => if b.anchor.position == p then [b] else []
  }

  /** The blocks at one position, in order. */
  function AtPosition(blocks: seq<Block>, p: nat): seq<Block> {
    Joined(blocks, OnlyAt(p))
  }

  lemma AtPositionAppend(blocks: seq<Block>, b: Block, p: nat)
    ensures AtPosition(blocks + [b], p) == AtPosition(blocks, p) + OnlyAt(p)(b)
  {
    assert (blocks + [b])[..|blocks|] == blocks;
  }

  lemma {:induction false} InsertSorts(sorted: seq<Block>, b: Block)
    requires Sorted(sorted)
    ensures Sorted(Insert(sorted, b))
    ensures forall x :: x in Insert(sorted, b) ==> x in sorted || x == b
  {
    if sorted != [] && sorted[|sorted| - 1].anchor.position > b.anchor.position {
      InsertSorts(sorted[..|sorted| - 1], b);
      var r := Insert(sorted[..|sorted| - 1], b);
      forall i | 0 <= i < |r| ensures r[i].anchor.position <= sorted[|sorted| - 1].anchor.position {
        assert r[i] in r;
      }
    }
  }

  lemma {:induction false} InsertIsStable(sorted: seq<Block>, b: Block, p: nat)
    ensures AtPosition(Insert(sorted, b), p) == AtPosition(sorted, p) + OnlyAt(p)(b)
  {
    hide AtPosition;
    if sorted == [] || sorted[|sorted| - 1].anchor.position <= b.anchor.position {
      AtPositionAppend(sorted, b, p);
    } else {
      assert sorted == sorted[..|sorted| - 1] + [sorted[|sorted| - 1]];
      AtPositionAppend(sorted[..|sorted| - 1], sorted[|sorted| - 1], p);
      var init, last := sorted[..|sorted| - 1], sorted[|sorted| - 1];
      InsertIsStable(init, b, p);
      AtPositionAppend(Insert(init, b), last, p);
    }
  }

  /** The sort is sorted, keeps the order of the blocks at each position, and adds none. */
  lemma {:induction false} StableSortIsStable(blocks: seq<Block>)
    ensures Sorted(StableSort(blocks))
    ensures SameAtEveryPosition(StableSort(blocks), blocks)
    ensures forall x :: x in StableSort(blocks) ==> x in blocks
  {
    if blocks != [] {
      var init, last := blocks[..|blocks| - 1], blocks[|blocks| - 1];
      StableSortIsStable(init);
      InsertSorts(StableSort(init), last);
      forall p: nat ensures AtPosition(StableSort(blocks), p) == AtPosition(blocks, p) {
        InsertIsStable(StableSort(init), last, p);
        assert AtPosition(StableSort(init), p) == AtPosition(init, p);
      }
    }
  }

  lemma {:induction false} SomeAt(blocks: seq<Block>, i: nat)
    requires i < |blocks|
    ensures AtPosition(blocks, blocks[i].anchor.position) != []
  {
    if i < |blocks| - 1 {
      SomeAt(blocks[..|blocks| - 1], i);
    }
  }

  lemma {:induction false} BlockAt(blocks: seq<Block>, p: nat) returns (i: nat)
    requires AtPosition(blocks, p) != []
    ensures i < |blocks| && blocks[i].anchor.position == p
  {
    if blocks[|blocks| - 1].anchor.position == p {
      i := |blocks| - 1;
    } else {
      i := BlockAt(blocks[..|blocks| - 1], p);
    }
  }

  ghost predicate SameAtEveryPosition(a: seq<Block>, b: seq<Block>) {
    forall p: nat :: AtPosition(a, p) == AtPosition(b, p)
  }

  lemma LastIsLargest(a: seq<Block>, b: seq<Block>)
    requires Sorted(a) && Sorted(b) && SameAtEveryPosition(a, b) && a != []
    ensures b != [] && a[|a| - 1].anchor.position <= b[|b| - 1].anchor.position
  {
    SomeAt(a, |a| - 1);
    var p := a[|a| - 1].anchor.position;
    assert AtPosition(b, p) == AtPosition(a, p);
    var i := BlockAt(b, p);
  }

  /** Sortedness and stability leave only one possible result, so any stable sort gives this one. */
  lemma {:induction false} StableOrderIsUnique(a: seq<Block>, b: seq<Block>)
    requires Sorted(a) && Sorted(b) && SameAtEveryPosition(a, b)
    ensures a == b
    decreases |a|
  {
    if a == [] {
      if b != [] {
        LastIsLargest(b, a);
      }
    } else {
      LastIsLargest(a, b);
      LastIsLargest(b, a);
      var a', b', x, y := a[..|a| - 1], b[..|b| - 1], a[|a| - 1], b[|b| - 1];
      assert a == a' + [x] && b == b' + [y];
      assert AtPosition(a, x.anchor.position) == AtPosition(b, x.anchor.position);
      SameLast(a', b', x, y);
      forall p: nat ensures AtPosition(a', p) == AtPosition(b', p) {
        assert AtPosition(a, p) == AtPosition(b, p);
        AtPositionAppend(a', x, p);
        AtPositionAppend(b', y, p);
        CancelSuffix(AtPosition(a', p), AtPosition(b', p), OnlyAt(p)(x));
      }
      StableOrderIsUnique(a', b');
    }
  }

  lemma CancelSuffix(s: seq<Block>, t: seq<Block>, u: seq<Block>)
    requires s + u == t + u
    ensures s == t
  {
    assert |s| == |t| && s == (s + u)[..|s|] && t == (t + u)[..|t|];
  }

  lemma SameLast(a: seq<Block>, b: seq<Block>, x: Block, y: Block)
    requires x.anchor.position == y.anchor.position
    requires AtPosition(a + [x], x.anchor.position) == AtPosition(b + [y], x.anchor.position)
    ensures x == y
  {
    var p := x.anchor.position;
    AtPositionAppend(a, x, p);
    AtPositionAppend(b, y, p);
    var s, t := AtPosition(a + [x], p), AtPosition(b + [y], p);
    assert s[|s| - 1] == x && t[|t| - 1] == y;
  }

  lemma {:induction false} InsertKeepsTokens(sorted: seq<Block>, b: Block)
    ensures Sum(Insert(sorted, b), BlockTokens) == Sum(sorted, BlockTokens) + BlockTokens(b)
    ensures multiset(Joined(Insert(sorted, b), MessagesOf))
         == multiset(Joined(sorted, MessagesOf)) + multiset(b.messages)
  {
    if sorted == [] || sorted[|sorted| - 1].anchor.position <= b.anchor.position {
      assert (sorted + [b])[..|sorted|] == sorted;
    } else {
      var init := sorted[..|sorted| - 1];
      InsertKeepsTokens(init, b);
      var r := Insert(sorted, b);
      assert r[..|r| - 1] == Insert(init, b);
    }
  }

  lemma {:induction false} SortKeepsTokens(blocks: seq<Block>)
    ensures Sum(StableSort(blocks), BlockTokens) == Sum(blocks, BlockTokens)
    ensures multiset(Joined(StableSort(blocks), MessagesOf)) == multiset(Joined(blocks, MessagesOf))
  {
    if blocks != [] {
      SortKeepsTokens(blocks[..|blocks| - 1]);
      InsertKeepsTokens(StableSort(blocks[..|blocks| - 1]), blocks[|blocks| - 1]);
    }
  }

  // ----- the build -----

  function InZone(zone: nat): Block -> seq<Block> {
    (b: Block) => if ZonePriority(b.anchor) == zone then [b] else []
  }

  /** The blocks of one zone, in collection order. */
  function Zone(blocks: seq<Block>, zone: nat): seq<Block> {
    Joined(blocks, InZone(zone))
  }

  const HEAD := 0
  const MIDDLE := 1
  const TAIL := 2

  /** How many blocks are left when blocks are popped from the end until the rest fits. */
  function FitCount(blocks: seq<Block>, budget: nat): (k: nat)
    ensures k <= |blocks|
  {
    if Sum(blocks, BlockTokens) > budget && blocks != [] then FitCount(blocks[..|blocks| - 1], budget) else |blocks|
  }

  function SortedMiddle(blocks: seq<Block>): seq<Block> {
    StableSort(Zone(blocks, MIDDLE))
  }

  function Kept(blocks: seq<Block>, g: Budget): seq<Block> {
    SortedMiddle(blocks)[..FitCount(SortedMiddle(blocks), MiddleBudget(g))]
  }

  /** Heads by position, the middle blocks that fit, tails as collected. */
  function Assemble(blocks: seq<Block>, g: Budget): seq<Message> {
    Joined(StableSort(Zone(blocks, HEAD)), MessagesOf) + Joined(Kept(blocks, g), MessagesOf)
    + Joined(Zone(blocks, TAIL), MessagesOf)
  }

  type Contribution = Result<seq<Block>, string>

  /** All contributions in order, or the first error. */
  function Collect(cs: seq<Contribution>): Contribution {
    if cs == [] then Ok([])
    else
      match Collect(cs[..|cs| - 1])
      case Err(e) => Err(e)
      case Ok(blocks) =>
        match cs[|cs| - 1]
        case Err(e) => Err(e)
        case Ok(more) => Ok(blocks + more)
  }

  /** Compression is triggered by the estimate of everything collected against the middle budget. */
  predicate Exceeds(blocks: seq<Block>, g: Budget) {
    Sum(Joined(blocks, MessagesOf), EstimateTokens) > MiddleBudget(g)
  }

  // ----- the build, told without its steps -----

  predicate AllContribute(cs: seq<Contribution>) {
    forall k :: 0 <= k < |cs| ==> cs[k].Ok?
  }

  function BlocksIn(c: Contribution): seq<Block> {
    if c.Ok? then c.value else []
  }

  /** Everything contributed, in order. */
  function AllBlocks(cs: seq<Contribution>): seq<Block> {
    Joined(cs, BlocksIn)
  }

  predicate FirstError(cs: seq<Contribution>, e: string) {
    exists k :: 0 <= k < |cs| && cs[k] == Err(e) && AllContribute(cs[..k])
  }

  lemma {:induction false} CollectMeans(cs: seq<Contribution>)
    ensures AllContribute(cs) ==> Collect(cs) == Ok(AllBlocks(cs))
    ensures !AllContribute(cs) ==> Collect(cs).Err? && FirstError(cs, Collect(cs).error)
  {
    if cs != [] {
      var p, last := cs[..|cs| - 1], cs[|cs| - 1];
      CollectMeans(p);
      assert cs == p + [last];
      if !AllContribute(p) {
        var k :| 0 <= k < |p| && p[k] == Err(Collect(p).error) && AllContribute(p[..k]);
        assert cs[k] == p[k] && cs[..k] == p[..k];
      } else if last.Err? {
        assert cs[|p|] == last && cs[..|p|] == p;
      }
    }
  }

  predicate FitsRoom(blocks: seq<Block>, g: Budget) {
    Sum(Joined(blocks, MessagesOf), EstimateTokens) <= Room(g)
  }

  function IfHead(b: Block): seq<Block> {
    if b.anchor.Head? then [b] else []
  }

  function IfMiddle(b: Block): seq<Block> {
    if b.anchor.Middle? then [b] else []
  }

  function IfTail(b: Block): seq<Block> {
    if b.anchor.Tail? then [b] else []
  }

  ghost predicate StablyOrdered(sorted: seq<Block>, blocks: seq<Block>) {
    Sorted(sorted) && SameAtEveryPosition(sorted, blocks)
  }

  /** The head blocks stably ordered, the longest prefix of the stably ordered middle blocks that fits, and the tail
      blocks as collected. */
  ghost predicate IsAssembly(blocks: seq<Block>, g: Budget, out: seq<Message>) {
    exists heads, middles, k: nat ::
      && StablyOrdered(heads, Joined(blocks, IfHead)) && StablyOrdered(middles, Joined(blocks, IfMiddle))
      && LongestFitting(middles, Room(g), k) && out == Laid(heads, middles, k, Joined(blocks, IfTail))
  }

  function Laid(heads: seq<Block>, middles: seq<Block>, k: nat, tails: seq<Block>): seq<Message>
    requires k <= |middles|
  {
    Joined(heads, MessagesOf) + Joined(middles[..k], MessagesOf) + Joined(tails, MessagesOf)
  }

  lemma {:induction false} ZonesAreAnchors(blocks: seq<Block>)
    ensures Zone(blocks, HEAD) == Joined(blocks, IfHead)
    ensures Zone(blocks, MIDDLE) == Joined(blocks, IfMiddle)
    ensures Zone(blocks, TAIL) == Joined(blocks, IfTail)
  {
    if blocks != [] {
      ZonesAreAnchors(blocks[..|blocks| - 1]);
    }
  }

  lemma AssembleIsAssembly(blocks: seq<Block>, g: Budget)
    ensures IsAssembly(blocks, g, Assemble(blocks, g))
  {
    hide Joined, Zone, StableSort, FitCount, LongestFitting, MiddleBudget, Room, Sorted, SameAtEveryPosition;
    var heads, middles := StableSort(Zone(blocks, HEAD)), SortedMiddle(blocks);
    var k := FitCount(middles, MiddleBudget(g));
    ZonesAreAnchors(blocks);
    StableSortIsStable(Zone(blocks, HEAD));
    StableSortIsStable(Zone(blocks, MIDDLE));
    MiddleBudgetIsRoom(g);
    FitCountIsLongest(middles, MiddleBudget(g));
    assert Assemble(blocks, g) == Laid(heads, middles, k, Joined(blocks, IfTail));
  }

  /** This leaves only one output. */
  lemma AssemblyIsUnique(blocks: seq<Block>, g: Budget, a: seq<Message>, b: seq<Message>)
    requires IsAssembly(blocks, g, a) && IsAssembly(blocks, g, b)
    ensures a == b
  {
    hide Joined, Room, Sorted, SameAtEveryPosition;
    var h, m, k: nat :| StablyOrdered(h, Joined(blocks, IfHead)) && StablyOrdered(m, Joined(blocks, IfMiddle))
                        && LongestFitting(m, Room(g), k) && a == Laid(h, m, k, Joined(blocks, IfTail));
    var h', m', k': nat :| StablyOrdered(h', Joined(blocks, IfHead)) && StablyOrdered(m', Joined(blocks, IfMiddle))
                           && LongestFitting(m', Room(g), k') && b == Laid(h', m', k', Joined(blocks, IfTail));
    OneOrder(h, h', Joined(blocks, IfHead));
    OneOrder(m, m', Joined(blocks, IfMiddle));
  }

  lemma OneOrder(a: seq<Block>, b: seq<Block>, blocks: seq<Block>)
    requires StablyOrdered(a, blocks) && StablyOrdered(b, blocks)
    ensures a == b
  {
    forall p: nat ensures AtPosition(a, p) == AtPosition(b, p) {
      assert AtPosition(a, p) == AtPosition(blocks, p);
    }
    StableOrderIsUnique(a, b);
  }

  /** A result that comes from these contributions alone: the first error, or the assembly, which loses nothing when
      everything fits. */
  ghost predicate ComesFrom(cs: seq<Contribution>, g: Budget, r: Result<seq<Message>, string>) {
    if AllContribute(cs) then
      && r.Ok? && IsAssembly(AllBlocks(cs), g, r.value)
      && (FitsRoom(AllBlocks(cs), g) ==> multiset(r.value) == multiset(Joined(AllBlocks(cs), MessagesOf)))
    else r.Err? && FirstError(cs, r.error)
  }

  /** Compression comes first exactly when everything was collected and does not fit. */
  predicate MustCompress(cs: seq<Contribution>, g: Budget) {
    AllContribute(cs) && !FitsRoom(AllBlocks(cs), g)
  }

  lemma CollectedComesFrom(cs: seq<Contribution>, g: Budget)
    ensures var r := if Collect(cs).Ok? then Ok(Assemble(Collect(cs).value, g)) else Err(Collect(cs).error);
            ComesFrom(cs, g, r)
    ensures MustCompress(cs, g) <==> Collect(cs).Ok? && Exceeds(Collect(cs).value, g)
  {
    hide Joined, Sum, Assemble, IsAssembly, AllContribute, FirstError, Room;
    CollectMeans(cs);
    MiddleBudgetIsRoom(g);
    if AllContribute(cs) {
      AssembleIsAssembly(AllBlocks(cs), g);
      if !Exceeds(AllBlocks(cs), g) {
        NothingLostWithinBudget(AllBlocks(cs), g);
      }
    }
  }

  /** A contributor: what it contributes now, and what it will contribute once compressed. */
  class Contributor {
    var current: Contribution
    const compressed: Contribution

    constructor (current: Contribution, compressed: Contribution)
      ensures this.current == current && this.compressed == compressed
    {
      this.current := current;
      this.compressed := compressed;
    }

    method Compress()
      modifies this`current
      ensures current == compressed
    {
      current := compressed;
    }
  }

  function Currents(cs: seq<Contributor>): seq<Contribution>
    reads cs
  {
    seq(|cs|, i requires 0 <= i < |cs| reads cs => cs[i].current)
  }

  function Compresseds(cs: seq<Contributor>): seq<Contribution> {
    seq(|cs|, i requires 0 <= i < |cs| => cs[i].compressed)
  }

  lemma {:induction false} CollectStops(cs: seq<Contribution>, i: nat)
    requires i <= |cs| && Collect(cs[..i]).Err?
    ensures Collect(cs) == Collect(cs[..i])
  {
    if i < |cs| {
      assert cs[..|cs| - 1][..i] == cs[..i];
      CollectStops(cs[..|cs| - 1], i);
    } else {
      assert cs[..i] == cs;
    }
  }

  method CollectAll(contributors: seq<Contributor>) returns (r: Contribution)
    ensures r == Collect(Currents(contributors))
  {
    ghost var cs := Currents(contributors);
    var allBlocks: seq<Block> := [];
    for i := 0 to |contributors|
      invariant Collect(cs[..i]) == Ok(allBlocks)
    {
      assert cs[..i + 1][..i] == cs[..i];
      match contributors[i].current
      case Err(e) =>
        CollectStops(cs, i + 1);
        return Err(e);
      case Ok(blocks) =>
        allBlocks := allBlocks + blocks;
    }
    assert cs[..|cs|] == cs;
    r := Ok(allBlocks);
  }

  method Concatenate(messages: seq<Message>, blocks: seq<Block>) returns (r: seq<Message>)
    ensures r == messages + Joined(blocks, MessagesOf)
  {
    r := messages;
    for i := 0 to |blocks|
      invariant r == messages + Joined(blocks[..i], MessagesOf)
    {
      assert blocks[..i + 1][..i] == blocks[..i];
      r := r + blocks[i].messages;
    }
    assert blocks[..|blocks|] == blocks;
  }

  method Partition(blocks: seq<Block>) returns (heads: seq<Block>, middles: seq<Block>, tails: seq<Block>)
    ensures heads == Zone(blocks, HEAD) && middles == Zone(blocks, MIDDLE) && tails == Zone(blocks, TAIL)
  {
    heads, middles, tails := [], [], [];
    for i := 0 to |blocks|
      invariant heads == Zone(blocks[..i], HEAD)
      invariant middles == Zone(blocks[..i], MIDDLE)
      invariant tails == Zone(blocks[..i], TAIL)
    {
      assert blocks[..i + 1][..i] == blocks[..i];
      var block := blocks[i];
      match block.anchor
      case Head(_) => heads := heads + [block];
      case Middle(_) => middles := middles + [block];
      case Tail(_) => tails := tails + [block];
    }
    assert blocks[..|blocks|] == blocks;
  }

  method DropToFit(blocks: seq<Block>, budget: nat) returns (rest: seq<Block>)
    ensures rest == blocks[..FitCount(blocks, budget)]
  {
    rest := blocks;
    while Sum(rest, BlockTokens) > budget && rest != []
      invariant |rest| <= |blocks| && rest == blocks[..|rest|]
      invariant FitCount(rest, budget) == FitCount(blocks, budget)
      decreases |rest|
    {
      rest := rest[..|rest| - 1];
    }
  }

  /** `ContextBuilder::build`. */
  method Build(contributors: seq<Contributor>, g: Budget) returns (r: Result<seq<Message>, string>)
    modifies contributors
    ensures MustCompress(old(Currents(contributors)), g) ==>
              && (forall c :: c in contributors ==> c.current == c.compressed)
              && ComesFrom(Compresseds(contributors), g, r)
    ensures !MustCompress(old(Currents(contributors)), g) ==>
              && (forall c :: c in contributors ==> c.current == old(c.current))
              && ComesFrom(old(Currents(contributors)), g, r)
  {
    hide Joined, Sum, Collect, StableSort, FitCount, Zone, MustCompress, ComesFrom;
    CollectedComesFrom(Currents(contributors), g);
    CollectedComesFrom(Compresseds(contributors), g);
    var collected := CollectAll(contributors);
    if collected.Err? {
      return Err(collected.error);
    }
    var allBlocks := collected.value;
    var totalTokens := Sum(Joined(allBlocks, MessagesOf), EstimateTokens);
    if totalTokens > MiddleBudget(g) {
      for i := 0 to |contributors|
        invariant forall k :: 0 <= k < i ==> contributors[k].current == contributors[k].compressed
        invariant forall c :: c in contributors ==> c.current == old(c.current) || c.current == c.compressed
      {
        contributors[i].Compress();
      }
      assert Currents(contributors) == Compresseds(contributors);
      collected := CollectAll(contributors);
      if collected.Err? {
        return Err(collected.error);
      }
      allBlocks := collected.value;
    }

    var headBlocks, middleBlocks, tailBlocks := Partition(allBlocks);
    headBlocks := StableSort(headBlocks);
    middleBlocks := StableSort(middleBlocks);
    middleBlocks := DropToFit(middleBlocks, SaturatingSub(SaturatingSub(g.total, g.headSize), g.tailSize));

    var messages := Concatenate([], headBlocks);
    assert messages == Joined(headBlocks, MessagesOf);
    messages := Concatenate(messages, middleBlocks);
    messages := Concatenate(messages, tailBlocks);
    r := Ok(messages);
  }

  // ----- what the build promises -----

  predicate LongestFitting(blocks: seq<Block>, budget: nat, k: nat) {
    k <= |blocks| && Sum(blocks[..k], BlockTokens) <= budget
    && forall j :: k < j <= |blocks| ==> Sum(blocks[..j], BlockTokens) > budget
  }

  lemma NoTokens()
    ensures Sum([], BlockTokens) == 0
  {
  }

  /** Popping keeps exactly the longest prefix that fits the budget. */
  lemma {:induction false} FitCountIsLongest(blocks: seq<Block>, budget: nat)
    ensures LongestFitting(blocks, budget, FitCount(blocks, budget))
  {
    hide BlockTokens, Sum;
    assert blocks[..|blocks|] == blocks;
    NoTokens();
    if Sum(blocks, BlockTokens) > budget && blocks != [] {
      var p := blocks[..|blocks| - 1];
      FitCountIsLongest(p, budget);
      assert forall j :: 0 <= j <= |p| ==> p[..j] == blocks[..j];
    }
  }

  lemma {:induction false} ZoneMembers(blocks: seq<Block>, zone: nat, b: Block)
    requires b in Zone(blocks, zone)
    ensures ZonePriority(b.anchor) == zone
  {
    if b in Zone(blocks[..|blocks| - 1], zone) {
      ZoneMembers(blocks[..|blocks| - 1], zone, b);
    }
  }

  /** Every kept middle block ranks at or above every dropped one. */
  lemma KeptOutrankDropped(blocks: seq<Block>, g: Budget, i: nat, j: nat)
    requires i < |Kept(blocks, g)| <= j < |SortedMiddle(blocks)|
    ensures RanksAtOrAbove(Kept(blocks, g)[i].anchor, SortedMiddle(blocks)[j].anchor)
  {
    var sorted := SortedMiddle(blocks);
    StableSortIsStable(Zone(blocks, MIDDLE));
    ZoneMembers(blocks, MIDDLE, sorted[i]);
    ZoneMembers(blocks, MIDDLE, sorted[j]);
  }

  lemma ZoneAppend(p: seq<Block>, b: Block, zone: nat)
    ensures Sum(Zone(p + [b], zone), BlockTokens)
         == Sum(Zone(p, zone), BlockTokens) + if ZonePriority(b.anchor) == zone then BlockTokens(b) else 0
    ensures multiset(Joined(Zone(p + [b], zone), MessagesOf))
         == multiset(Joined(Zone(p, zone), MessagesOf))
            + if ZonePriority(b.anchor) == zone then multiset(b.messages) else multiset{}
  {
    assert (p + [b])[..|p|] == p;
    var z := Zone(p + [b], zone);
    if ZonePriority(b.anchor) == zone {
      assert z[..|z| - 1] == Zone(p, zone);
    } else {
      assert z == Zone(p, zone);
    }
  }

  lemma {:induction false} ZonesPartition(blocks: seq<Block>)
    ensures Sum(blocks, BlockTokens) == Sum(Zone(blocks, HEAD), BlockTokens)
                                        + Sum(Zone(blocks, MIDDLE), BlockTokens) + Sum(Zone(blocks, TAIL), BlockTokens)
    ensures multiset(Joined(blocks, MessagesOf))
         == multiset(Joined(Zone(blocks, HEAD), MessagesOf)) + multiset(Joined(Zone(blocks, MIDDLE), MessagesOf))
            + multiset(Joined(Zone(blocks, TAIL), MessagesOf))
  {
    hide Zone, BlockTokens, Sum, Joined;
    if blocks == [] {
      NoZones();
    } else {
      var p, b := blocks[..|blocks| - 1], blocks[|blocks| - 1];
      assert blocks == p + [b];
      ZonesPartition(p);
      AppendBlock(p, b);
      ZoneAppend(p, b, HEAD);
      ZoneAppend(p, b, MIDDLE);
      ZoneAppend(p, b, TAIL);
    }
  }

  lemma AppendBlock(p: seq<Block>, b: Block)
    ensures Sum(p + [b], BlockTokens) == Sum(p, BlockTokens) + BlockTokens(b)
    ensures multiset(Joined(p + [b], MessagesOf)) == multiset(Joined(p, MessagesOf)) + multiset(b.messages)
  {
    assert (p + [b])[..|p|] == p;
  }

  lemma NoZones()
    ensures Zone([], HEAD) == Zone([], MIDDLE) == Zone([], TAIL) == []
    ensures Sum([], BlockTokens) == 0 && Joined([], MessagesOf) == []
  {
  }

  /** Middle blocks are dropped exactly when the middle blocks alone exceed the middle budget. */
  lemma DroppedIff(blocks: seq<Block>, g: Budget)
    ensures Kept(blocks, g) == SortedMiddle(blocks) <==> Sum(Zone(blocks, MIDDLE), BlockTokens) <= MiddleBudget(g)
  {
    SortKeepsTokens(Zone(blocks, MIDDLE));
    FitCountIsLongest(SortedMiddle(blocks), MiddleBudget(g));
    var sorted := SortedMiddle(blocks);
    assert sorted[..|sorted|] == sorted;
  }

  /** Nothing is lost unless compression was triggered first. */
  lemma NothingLostWithinBudget(blocks: seq<Block>, g: Budget)
    requires !Exceeds(blocks, g)
    ensures multiset(Assemble(blocks, g)) == multiset(Joined(blocks, MessagesOf))
  {
    TokensOfBlocks(blocks);
    ZonesPartition(blocks);
    DroppedIff(blocks, g);
    SortKeepsTokens(Zone(blocks, HEAD));
    SortKeepsTokens(Zone(blocks, MIDDLE));
  }

  /** Head and tail messages are never lost: the heads open the output and the tails close it, as collected. */
  lemma HeadAndTailSurvive(blocks: seq<Block>, g: Budget)
    ensures var out := Assemble(blocks, g);
            var heads := Joined(StableSort(Zone(blocks, HEAD)), MessagesOf);
            var tails := Joined(Zone(blocks, TAIL), MessagesOf);
            && |heads| + |tails| <= |out| && out[..|heads|] == heads && out[|out| - |tails|..] == tails
            && multiset(heads) == multiset(Joined(Zone(blocks, HEAD), MessagesOf))
  {
    hide Joined, Zone, StableSort, Kept;
    SortKeepsTokens(Zone(blocks, HEAD));
  }

  /** The output's estimate is at most the heads, the tails and the middle budget; so it is at most the total
      when heads and tails fit reserves that fit the total. */
  lemma OutputWithinTotal(blocks: seq<Block>, g: Budget)
    ensures var out := Sum(Assemble(blocks, g), EstimateTokens);
            var heads := Sum(Zone(blocks, HEAD), BlockTokens);
            var tails := Sum(Zone(blocks, TAIL), BlockTokens);
            && heads + tails <= out <= heads + tails + MiddleBudget(g)
            && (heads <= g.headSize && tails <= g.tailSize && g.headSize + g.tailSize <= g.total ==> out <= g.total)
  {
    var h, k, t := StableSort(Zone(blocks, HEAD)), Kept(blocks, g), Zone(blocks, TAIL);
    SortKeepsTokens(Zone(blocks, HEAD));
    FitCountIsLongest(SortedMiddle(blocks), MiddleBudget(g));
    TokensOfBlocks(h);
    TokensOfBlocks(k);
    TokensOfBlocks(t);
    SumConcat(Joined(h, MessagesOf), Joined(k, MessagesOf), EstimateTokens);
    SumConcat(Joined(h, MessagesOf) + Joined(k, MessagesOf), Joined(t, MessagesOf), EstimateTokens);
  }
}
