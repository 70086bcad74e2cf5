/**
 The event-to-tree builder of src-tauri/src/kernel_config_validation.rs and its plain-scalar
 classification (compare section 10.3 of YAML 1.2.2).
 */
module Yaml {
  import opened Text
  import opened Wrappers

  datatype Scalar = Bool(flag: bool) | Int(number: int) | Real(text: string) | Null | Str(text: string)

  datatype Pair = Pair(key: Node, value: Option<Node>)

  /** A mapping's last value may be missing (`key:` with nothing behind it). */
  datatype Node =
    | Leaf(value: Scalar, tag: Option<string>)
    | Sequence(items: seq<Node>, tag: Option<string>)
    | Mapping(entries: seq<Pair>, tag: Option<string>)
    | Alias

  // ---------------------------------------------------------------------------
  // Plain scalars
  // ---------------------------------------------------------------------------

  const I64_MIN: int := -0x8000_0000_0000_0000
  const I64_MAX: int := 0x7FFF_FFFF_FFFF_FFFF

  /** The text without one leading sign. */
  function Unsigned(s: string): string {
    if s != "" && (s[0] == '+' || s[0] == '-') then s[1..] else s
  }

  predicate IsNumber(s: string) {
    s != "" && AllDigits(s)
  }

  function Signed(s: string): int
    requires IsNumber(Unsigned(s))
  {
    var n: int := Value(Unsigned(s));
    if s[0] == '-' then -n else n
  }

  /** `str::parse::<i64>`. */
  function ParseI64(s: string): Option<int> {
    if IsNumber(Unsigned(s)) && I64_MIN <= Signed(s) <= I64_MAX then Some(Signed(s)) else None
  }

  /** The smallest magnitude that rounds to infinity in binary64: 2^1024 - 2^970. */
  const FLOAT_LIMIT: nat := 0xFFFFFFFFFFFFFC00000000000000000000000000000000000000000000000000000000000000000000000000000000000000000000000000000000000000000000000000000000000000000000000000000000000000000000000000000000000000000000000000000000000000000000000000000000000000000000000000

  /** `n` followed by `zeros` zeros. */
  function Scaled(n: nat, zeros: nat): nat
    decreases zeros
  {
    if zeros == 0 then n else Scaled(10 * n, zeros - 1)
  }

  /** `digits` times ten to the power `scale` is below the limit. */
  predicate IsFinite(digits: nat, scale: int) {
    if scale >= 0 then Scaled(digits, scale) < FLOAT_LIMIT else digits < Scaled(FLOAT_LIMIT, -scale)
  }

  lemma Pow970()
    ensures Pow2(970) == 0x400000000000000000000000000000000000000000000000000000000000000000000000000000000000000000000000000000000000000000000000000000000000000000000000000000000000000000000000000000000000000000000000000000000000000000000000000000000000000000000000000
  {
    assert Pow2(1) == 2 * Pow2(0);
    Pow2Product(1, 1, 0x2, 0x2);
    Pow2Product(2, 1, 0x4, 0x2);
    Pow2Product(3, 3, 0x8, 0x8);
    Pow2Product(6, 1, 0x40, 0x2);
    Pow2Product(7, 7, 0x80, 0x80);
    Pow2Product(14, 1, 0x4000, 0x2);
    Pow2Product(15, 15, 0x8000, 0x8000);
    Pow2Product(30, 30, 0x40000000, 0x40000000);
    Pow2Product(60, 60, 0x1000000000000000, 0x1000000000000000);
    Pow2Product(120, 1, 0x1000000000000000000000000000000, 0x2);
    Pow2Product(121, 121, 0x2000000000000000000000000000000, 0x2000000000000000000000000000000);
    Pow2Product(242, 242, 0x4000000000000000000000000000000000000000000000000000000000000, 0x4000000000000000000000000000000000000000000000000000000000000);
    Pow2Product(484, 1, 0x10000000000000000000000000000000000000000000000000000000000000000000000000000000000000000000000000000000000000000000000000, 0x2);
    Pow2Product(485, 485, 0x20000000000000000000000000000000000000000000000000000000000000000000000000000000000000000000000000000000000000000000000000, 0x20000000000000000000000000000000000000000000000000000000000000000000000000000000000000000000000000000000000000000000000000);
  }

  lemma Pow54()
    ensures Pow2(53) == 0x20000000000000 && Pow2(54) == 0x40000000000000
  {
    assert Pow2(1) == 2 * Pow2(0);
    Pow2Product(1, 1, 0x2, 0x2);
    Pow2Product(2, 1, 0x4, 0x2);
    Pow2Product(3, 3, 0x8, 0x8);
    Pow2Product(6, 6, 0x40, 0x40);
    Pow2Product(12, 1, 0x1000, 0x2);
    Pow2Product(13, 13, 0x2000, 0x2000);
    Pow2Product(26, 26, 0x4000000, 0x4000000);
    Pow2Product(52, 1, 0x10000000000000, 0x2);
    Pow2Product(53, 1, 0x20000000000000, 0x2);
  }

  /** The limit is half a unit in the last place above the largest finite magnitude, (2^53 - 1) * 2^971. */
  lemma FloatLimit()
    ensures FLOAT_LIMIT == Pow2(1024) - Pow2(970) == (Pow2(53) - 1) * Pow2(971) + Pow2(970)
  {
    Pow970();
    Pow54();
    Pow2Product(54, 970, Pow2(54), Pow2(970));
    assert Pow2(971) == 2 * Pow2(970);
  }

  lemma Pow10At308()
    ensures Pow10(308) == 100000000000000000000000000000000000000000000000000000000000000000000000000000000000000000000000000000000000000000000000000000000000000000000000000000000000000000000000000000000000000000000000000000000000000000000000000000000000000000000000000000000000000000000000000000000000000000000000000000000000000000000
  {
    assert Pow10(1) == 10 * Pow10(0);
    Pow10Product(1, 1, 10, 10);
    Pow10Product(2, 2, 100, 100);
    Pow10Product(4, 4, 10000, 10000);
    Pow10Product(8, 1, 100000000, 10);
    Pow10Product(9, 9, 1000000000, 1000000000);
    Pow10Product(18, 1, 1000000000000000000, 10);
    Pow10Product(19, 19, 10000000000000000000, 10000000000000000000);
    Pow10Product(38, 38, 100000000000000000000000000000000000000, 100000000000000000000000000000000000000);
    Pow10Product(76, 1, 10000000000000000000000000000000000000000000000000000000000000000000000000000, 10);
    Pow10Product(77, 77, 100000000000000000000000000000000000000000000000000000000000000000000000000000, 100000000000000000000000000000000000000000000000000000000000000000000000000000);
    Pow10Product(154, 154, 10000000000000000000000000000000000000000000000000000000000000000000000000000000000000000000000000000000000000000000000000000000000000000000000000000000000, 10000000000000000000000000000000000000000000000000000000000000000000000000000000000000000000000000000000000000000000000000000000000000000000000000000000000);
  }

  lemma {:induction false} ScaledIs(n: nat, zeros: nat)
    ensures Scaled(n, zeros) == n * Pow10(zeros)
    decreases zeros
  {
    if zeros > 0 {
      ScaledIs(10 * n, zeros - 1);
    }
  }

  /** The limit lies between 1e308 and 2e308. */
  lemma LimitLies()
    ensures IsFinite(1, 308) && !IsFinite(2, 308)
  {
    Pow10At308();
    ScaledIs(1, 308);
    ScaledIs(2, 308);
  }

  /** The digits of an unsigned literal whose dot stands at `dot` (or nowhere: `dot == e`). */
  function FloatDigits(u: string, dot: nat, e: nat): string
    requires dot <= e <= |u|
  {
    u[..dot] + if dot < e then u[dot + 1..e] else ""
  }

  /** `u` is an unsigned literal with its dot at `dot` and its exponent mark at `e`, and is finite. */
  predicate FloatAt(u: string, dot: nat, e: nat)
    requires dot <= e <= |u|
  {
    && (dot < e ==> u[dot] == '.')
    && (e < |u| ==> u[e] in "eE" && IsNumber(Unsigned(u[e + 1..])))
    && IsNumber(FloatDigits(u, dot, e))
    && IsFinite(Value(FloatDigits(u, dot, e)),
                (if e < |u| then Signed(u[e + 1..]) else 0) - (if dot < e then e - dot - 1 else 0))
  }

  /** The decimal literals `str::parse::<f64>` reads as a finite number. */
  predicate IsFiniteFloat(s: string) {
    exists dot: nat, e: nat | dot <= e <= |Unsigned(s)| :: FloatAt(Unsigned(s), dot, e)
  }

  predicate HasFloatMark(s: string) {
    exists i | 0 <= i < |s| :: s[i] in ".eE"
  }

  function ClassifyPlain(s: string): Scalar {
    if s in ["", "null", "Null", "NULL", "~"] then Null
    else if s in ["true", "True", "TRUE"] then Bool(true)
    else if s in ["false", "False", "FALSE"] then Bool(false)
    else if ParseI64(s).Some? then Int(ParseI64(s).value)
    else if IsFiniteFloat(s) && HasFloatMark(s) && !("0x" <= s) then Real(s)
    else Str(s)
  }

  /** Text with a character that no number has is not a number. */
  lemma NotANumber(s: string, i: nat)
    requires i < |s| && !IsDigit(s[i]) && s[i] !in "+-.eE"
    ensures ParseI64(s).None? && !IsFiniteFloat(s)
  {
    var u := Unsigned(s);
    var k := if u == s then i else i - 1;
    assert u[k] == s[i];
    forall dot: nat, e: nat | dot <= e <= |u| ensures !FloatAt(u, dot, e) {
      NotAFloat(u, dot, e, k);
    }
  }

  lemma NotAFloat(u: string, dot: nat, e: nat, k: nat)
    requires dot <= e <= |u| && k < |u| && !IsDigit(u[k])
    requires k < e ==> k != dot || u[k] != '.'
    requires k > e ==> u[k] !in "+-"
    requires k == e ==> u[k] !in "eE"
    ensures !FloatAt(u, dot, e)
  {
    if k < dot {
      assert FloatDigits(u, dot, e)[k] == u[k];
    } else if dot < k < e {
      assert FloatDigits(u, dot, e)[k - 1] == u[k];
    } else if k > e {
      var x := u[e + 1..];
      assert x[k - e - 1] == u[k];
      assert Unsigned(x)[if Unsigned(x) == x then k - e - 1 else k - e - 2] == u[k];
    }
  }

  /** Text with two dots is not a number. */
  lemma TwoDots(s: string, i: nat, j: nat)
    requires i < j < |s| && s[i] == s[j] == '.'
    ensures ParseI64(s).None? && !IsFiniteFloat(s)
  {
    var u := Unsigned(s);
    var off := if u == s then 0 else 1;
    assert u[i - off] == '.' && u[j - off] == '.';
    forall dot: nat, e: nat | dot <= e <= |u| ensures !FloatAt(u, dot, e) {
      NotAFloat(u, dot, e, if i - off == dot then j - off else i - off);
    }
  }

  // ---------------------------------------------------------------------------
  // Events and the builder
  // ---------------------------------------------------------------------------

  datatype Event =
    | ScalarEvent(text: string, plain: bool, tag: Option<string>)
    | AliasEvent
    | SequenceStart(tag: Option<string>)
    | SequenceEnd
    | MappingStart(tag: Option<string>)
    | MappingEnd
    | Boundary

  /** An open collection; `pending` is a key that waits for its value. */
  datatype Container =
    | OpenSequence(items: seq<Node>, tag: Option<string>)
    | OpenMapping(entries: seq<Pair>, pending: Option<Node>, tag: Option<string>)

  datatype Builder = Builder(stack: seq<Container>, root: Option<Node>)

  function Last(stack: seq<Container>): Container
    requires stack != []
  {
    stack[|stack| - 1]
  }

  function Accept(c: Container, node: Node): Container {
    match c
    case OpenSequence(items, tag) => OpenSequence(items + [node], tag)
    case OpenMapping(entries, pending, tag) =>
      if pending.Some? then OpenMapping(entries + [Pair(pending.value, Some(node))], None, tag)
      else OpenMapping(entries, Some(node), tag)
  }

  function Closed(c: Container): Node {
    match c
    case OpenSequence(items, tag) => Sequence(items, tag)
    case OpenMapping(entries, pending, tag) =>
      Mapping(if pending.Some? then entries + [Pair(pending.value, None)] else entries, tag)
  }

  function Completed(b: Builder, node: Node): Builder {
    if b.stack == [] then (if b.root.None? then b.(root := Some(node)) else b)
    else b.(stack := b.stack[..|b.stack| - 1] + [Accept(Last(b.stack), node)])
  }

  function ScalarOf(text: string, plain: bool): Scalar {
    if plain then ClassifyPlain(text) else Str(text)
  }

  function OnEvent(b: Builder, e: Event): Builder {
    match e
    case ScalarEvent(text, plain, tag) => Completed(b, Leaf(ScalarOf(text, plain), tag))
    case AliasEvent => Completed(b, Alias)
    case SequenceStart(tag) => b.(stack := b.stack + [OpenSequence([], tag)])
    case MappingStart(tag) => b.(stack := b.stack + [OpenMapping([], None, tag)])
    case SequenceEnd => Popped(b)
    case MappingEnd => Popped(b)
    case Boundary => b
  }

  function Popped(b: Builder): Builder {
    if b.stack == [] then b
    else Completed(b.(stack := b.stack[..|b.stack| - 1]), Closed(Last(b.stack)))
  }

  function Feed(b: Builder, events: seq<Event>): Builder
    decreases |events|
  {
    if events == [] then b else Feed(OnEvent(b, events[0]), events[1..])
  }

  class DomBuilder {
    var stack: seq<Container>
    var root: Option<Node>

    ghost function View(): Builder
      reads this
    {
      Builder(stack, root)
    }

    constructor ()
      ensures View() == Builder([], None)
    {
      stack, root := [], None;
    }

    method Complete(node: Node)
      modifies this
      ensures View() == Completed(old(View()), node)
    {
      if stack == [] {
        if root.None? {
          root := Some(node);
        }
        return;
      }
      var top := Last(stack);
      match top {
        case OpenSequence(items, tag) =>
          top := OpenSequence(items + [node], tag);
        case OpenMapping(entries, pending, tag) =>
          if pending.Some? {
            top := OpenMapping(entries + [Pair(pending.value, Some(node))], None, tag);
          } else {
            top := OpenMapping(entries, Some(node), tag);
          }
      }
      stack := stack[..|stack| - 1] + [top];
    }

    method PopContainer() returns (node: Option<Node>)
      modifies this`stack
      ensures old(stack) == [] ==> node.None? && stack == []
      ensures old(stack) != [] ==> node == Some(Closed(Last(old(stack)))) && stack == old(stack)[..|old(stack)| - 1]
    {
      if stack == [] {
        return None;
      }
      var top := Last(stack);
      stack := stack[..|stack| - 1];
      match top {
        case OpenSequence(items, tag) =>
          return Some(Sequence(items, tag));
        case OpenMapping(entries, pending, tag) =>
          var all := entries;
          if pending.Some? {
            all := all + [Pair(pending.value, None)];
          }
          return Some(Mapping(all, tag));
      }
    }

    method Receive(e: Event)
      modifies this
      ensures View() == OnEvent(old(View()), e)
    {
      match e {
        case ScalarEvent(text, plain, tag) =>
          Complete(Leaf(ScalarOf(text, plain), tag));
        case AliasEvent =>
          Complete(Alias);
        case SequenceStart(tag) =>
          stack := stack + [OpenSequence([], tag)];
        case MappingStart(tag) =>
          stack := stack + [OpenMapping([], None, tag)];
        case SequenceEnd =>
          End();
        case MappingEnd =>
          End();
        case Boundary =>
      }
    }

    method End()
      modifies this
      ensures View() == Popped(old(View()))
    {
      var node := PopContainer();
      if node.Some? {
        Complete(node.value);
      }
    }
  }

  // ---------------------------------------------------------------------------
  // Source trees, their events and their meaning
  // ---------------------------------------------------------------------------

  datatype SourcePair = SourcePair(key: Source, value: Source)

  /** A tree as written; `dangling` is a last key without a value. */
  datatype Source =
    | Written(text: string, plain: bool, tag: Option<string>)
    | Reference
    | Items(items: seq<Source>, tag: Option<string>)
    | Entries(entries: seq<SourcePair>, dangling: Option<Source>, tag: Option<string>)

  function Events(t: Source): seq<Event>
    decreases t, 1
  {
    match t
    case Written(text, plain, tag) => [ScalarEvent(text, plain, tag)]
    case Reference => [AliasEvent]
    case Items(items, tag) => [SequenceStart(tag)] + ItemEvents(items) + [SequenceEnd]
    case Entries(entries, dangling, tag) =>
      [MappingStart(tag)] + EntryEvents(entries) + (if dangling.Some? then Events(dangling.value) else []) + [MappingEnd]
  }

  function ItemEvents(items: seq<Source>): seq<Event>
    decreases items, 0
  {
    if items == [] then [] else Events(items[0]) + ItemEvents(items[1..])
  }

  function EntryEvents(entries: seq<SourcePair>): seq<Event>
    decreases entries, 0
  {
    if entries == [] then [] else PairEvents(entries[0]) + EntryEvents(entries[1..])
  }

  function PairEvents(e: SourcePair): seq<Event>
    decreases e, 0
  {
    Events(e.key) + Events(e.value)
  }

  function Denote(t: Source): Node
    decreases t, 1
  {
    match t
    case Written(text, plain, tag) => Leaf(ScalarOf(text, plain), tag)
    case Reference => Alias
    case Items(items, tag) => Sequence(DenoteItems(items), tag)
    case Entries(entries, dangling, tag) =>
      Mapping(DenoteEntries(entries) + (if dangling.Some? then [Pair(Denote(dangling.value), None)] else []), tag)
  }

  function DenoteItems(items: seq<Source>): seq<Node>
    decreases items, 0
  {
    if items == [] then [] else [Denote(items[0])] + DenoteItems(items[1..])
  }

  function DenoteEntries(entries: seq<SourcePair>): seq<Pair>
    decreases entries, 0
  {
    if entries == [] then [] else [DenotePair(entries[0])] + DenoteEntries(entries[1..])
  }

  function DenotePair(e: SourcePair): Pair
    decreases e, 0
  {
    Pair(Denote(e.key), Some(Denote(e.value)))
  }

  lemma {:induction false} FeedAppend(b: Builder, first: seq<Event>, rest: seq<Event>)
    ensures Feed(b, first + rest) == Feed(Feed(b, first), rest)
    decreases |first|
  {
    if first == [] {
      assert first + rest == rest;
    } else {
      assert (first + rest)[1..] == first[1..] + rest;
      FeedAppend(OnEvent(b, first[0]), first[1..], rest);
    }
  }

  lemma FeedOne(b: Builder, e: Event)
    ensures Feed(b, [e]) == OnEvent(b, e)
  {
    assert [e][1..] == [];
    assert Feed(OnEvent(b, e), []) == OnEvent(b, e);
  }

  lemma Assoc<T>(a: seq<T>, b: seq<T>, c: seq<T>)
    ensures a + b + c == a + (b + c)
  {
  }

  function Pushed(b: Builder, c: Container): Builder {
    b.(stack := b.stack + [c])
  }

  lemma CompleteOnTop(b: Builder, c: Container, node: Node)
    ensures Completed(Pushed(b, c), node) == Pushed(b, Accept(c, node))
  {
    assert (b.stack + [c])[..|b.stack|] == b.stack;
  }

  lemma PopTop(b: Builder, c: Container)
    ensures Popped(Pushed(b, c)) == Completed(b, Closed(c))
  {
    assert (b.stack + [c])[..|b.stack|] == b.stack;
  }

  /** Feeding the events of any tree completes exactly that tree, whatever is open around it. */
  lemma {:induction false} Rebuild(b: Builder, t: Source)
    ensures Feed(b, Events(t)) == Completed(b, Denote(t))
    decreases t, 1
  {
    match t
    case Written(text, plain, tag) => FeedOne(b, ScalarEvent(text, plain, tag));
    case Reference => FeedOne(b, AliasEvent);
    case Items(items, tag) => RebuildSequence(b, items, tag);
    case Entries(entries, dangling, tag) => RebuildMapping(b, t);
  }

  lemma {:induction false} RebuildSequence(b: Builder, items: seq<Source>, tag: Option<string>)
    ensures Feed(b, [SequenceStart(tag)] + ItemEvents(items) + [SequenceEnd]) ==
            Completed(b, Sequence(DenoteItems(items), tag))
    decreases items, 2
  {
    var open := Pushed(b, OpenSequence([], tag));
    FeedAppend(b, [SequenceStart(tag)] + ItemEvents(items), [SequenceEnd]);
    FeedAppend(b, [SequenceStart(tag)], ItemEvents(items));
    FeedOne(b, SequenceStart(tag));
    RebuildItems(b, items, [], tag);
    assert [] + DenoteItems(items) == DenoteItems(items);
    FeedOne(Pushed(b, OpenSequence(DenoteItems(items), tag)), SequenceEnd);
    PopTop(b, OpenSequence(DenoteItems(items), tag));
  }

  lemma {:induction false} RebuildItems(b: Builder, items: seq<Source>, done: seq<Node>, tag: Option<string>)
    ensures Feed(Pushed(b, OpenSequence(done, tag)), ItemEvents(items)) ==
            Pushed(b, OpenSequence(done + DenoteItems(items), tag))
    decreases items, 0
  {
    if items == [] {
      assert done + [] == done;
    } else {
      var top := OpenSequence(done, tag);
      var node := Denote(items[0]);
      FeedAppend(Pushed(b, top), Events(items[0]), ItemEvents(items[1..]));
      Rebuild(Pushed(b, top), items[0]);
      CompleteOnTop(b, top, node);
      RebuildItems(b, items[1..], done + [node], tag);
      Assoc(done, [node], DenoteItems(items[1..]));
    }
  }

  lemma {:induction false} RebuildMapping(b: Builder, t: Source)
    requires t.Entries?
    ensures Feed(b, Events(t)) == Completed(b, Denote(t))
    decreases t, 0
  {
    var tag := t.tag;
    var last := if t.dangling.Some? then Events(t.dangling.value) else [];
    var pairs := DenoteEntries(t.entries);
    FeedMapping(b, EntryEvents(t.entries), last, tag);
    RebuildEntries(b, t.entries, [], tag);
    assert [] + pairs == pairs;
    if t.dangling.Some? {
      Rebuild(Pushed(b, OpenMapping(pairs, None, tag)), t.dangling.value);
      CompleteOnTop(b, OpenMapping(pairs, None, tag), Denote(t.dangling.value));
    }
    PopTop(b, OpenMapping(pairs, if t.dangling.Some? then Some(Denote(t.dangling.value)) else None, tag));
    assert pairs + [] == pairs;
  }

  lemma FeedMapping(b: Builder, entries: seq<Event>, last: seq<Event>, tag: Option<string>)
    ensures Feed(b, [MappingStart(tag)] + entries + last + [MappingEnd]) ==
            Popped(Feed(Feed(Pushed(b, OpenMapping([], None, tag)), entries), last))
  {
    FeedAppend(b, [MappingStart(tag)] + entries + last, [MappingEnd]);
    FeedAppend(b, [MappingStart(tag)] + entries, last);
    FeedAppend(b, [MappingStart(tag)], entries);
    FeedOne(b, MappingStart(tag));
    FeedOne(Feed(Feed(Pushed(b, OpenMapping([], None, tag)), entries), last), MappingEnd);
  }

  lemma {:induction false} RebuildEntries(b: Builder, entries: seq<SourcePair>, done: seq<Pair>, tag: Option<string>)
    ensures Feed(Pushed(b, OpenMapping(done, None, tag)), EntryEvents(entries)) ==
            Pushed(b, OpenMapping(done + DenoteEntries(entries), None, tag))
    decreases entries, 0
  {
    if entries == [] {
      assert done + [] == done;
    } else {
      var e := entries[0];
      var top := OpenMapping(done, None, tag);
      FeedAppend(Pushed(b, top), PairEvents(e), EntryEvents(entries[1..]));
      RebuildPair(b, e, done, tag);
      RebuildEntries(b, entries[1..], done + [DenotePair(e)], tag);
      Assoc(done, [DenotePair(e)], DenoteEntries(entries[1..]));
    }
  }

  lemma {:induction false} RebuildPair(b: Builder, e: SourcePair, done: seq<Pair>, tag: Option<string>)
    ensures Feed(Pushed(b, OpenMapping(done, None, tag)), PairEvents(e)) ==
            Pushed(b, OpenMapping(done + [DenotePair(e)], None, tag))
    decreases e, 0
  {
    var top, waiting := OpenMapping(done, None, tag), OpenMapping(done, Some(Denote(e.key)), tag);
    FeedAppend(Pushed(b, top), Events(e.key), Events(e.value));
    Rebuild(Pushed(b, top), e.key);
    CompleteOnTop(b, top, Denote(e.key));
    Rebuild(Pushed(b, waiting), e.value);
    CompleteOnTop(b, waiting, Denote(e.value));
  }

  /** The events of several documents with their boundaries. */
  function Documents(docs: seq<Source>): seq<Event> {
    if docs == [] then [] else [Boundary] + Events(docs[0]) + [Boundary] + Documents(docs[1..])
  }

  lemma {:induction false} LaterDocumentsAreIgnored(b: Builder, docs: seq<Source>)
    requires b.stack == [] && b.root.Some?
    ensures Feed(b, Documents(docs)) == b
    decreases |docs|
  {
    if docs != [] {
      FeedDocument(b, docs[0], Documents(docs[1..]));
      LaterDocumentsAreIgnored(b, docs[1..]);
    }
  }

  lemma FeedDocument(b: Builder, doc: Source, rest: seq<Event>)
    ensures Feed(b, [Boundary] + Events(doc) + [Boundary] + rest) == Feed(Completed(b, Denote(doc)), rest)
  {
    FeedAppend(b, [Boundary] + Events(doc) + [Boundary], rest);
    FeedAppend(b, [Boundary] + Events(doc), [Boundary]);
    FeedAppend(b, [Boundary], Events(doc));
    FeedOne(b, Boundary);
    Rebuild(b, doc);
    FeedOne(Completed(b, Denote(doc)), Boundary);
  }

  /** The root is the first document and nothing stays open. */
  lemma FirstDocumentIsRoot(docs: seq<Source>)
    requires docs != []
    ensures Feed(Builder([], None), Documents(docs)) == Builder([], Some(Denote(docs[0])))
  {
    FeedDocument(Builder([], None), docs[0], Documents(docs[1..]));
    LaterDocumentsAreIgnored(Builder([], Some(Denote(docs[0]))), docs[1..]);
  }

  /** Why there is no document: the parser gave up, or it had nothing to say. */
  datatype Problem = AliasUsed | Failed(message: string) | NoDocument

  predicate Mentions(message: string, part: string) {
    part <= message || (message != [] && Mentions(message[1..], part))
  }

  /** An alias without an anchor stops the parser and is reported like any other alias. */
  function Reported(message: string): Problem {
    if Mentions(message, "unknown anchor") then AliasUsed else Failed(message)
  }

  predicate StandsIn(message: string, part: string, i: nat) {
    i + |part| <= |message| && message[i..i + |part|] == part
  }

  lemma StandsLater(message: string, part: string, i: nat)
    requires message != []
    ensures StandsIn(message[1..], part, i) <==> StandsIn(message, part, i + 1)
  {
    if i + 1 + |part| <= |message| {
      assert message[1..][i..i + |part|] == message[i + 1..i + 1 + |part|];
    }
  }

  lemma {:induction false} MentionsExactly(message: string, part: string)
    ensures Mentions(message, part) <==> exists i: nat :: StandsIn(message, part, i)
    decreases |message|
  {
    if part <= message {
      assert StandsIn(message, part, 0);
    } else if message != [] {
      MentionsExactly(message[1..], part);
      forall i: nat ensures StandsIn(message[1..], part, i) <==> StandsIn(message, part, i + 1) {
        StandsLater(message, part, i);
      }
      if exists i: nat :: StandsIn(message, part, i) {
        var i: nat :| StandsIn(message, part, i);
        assert i > 0;
        assert StandsIn(message[1..], part, i - 1) <==> StandsIn(message, part, i - 1 + 1);
      }
    } else {
      assert forall i: nat :: !StandsIn(message, part, i);
    }
  }

  /** A failure is put down to an alias exactly if its message has "unknown anchor" in it somewhere. */
  lemma AliasFailureExactly(message: string)
    ensures Reported(message) ==
            if exists i: nat :: StandsIn(message, "unknown anchor", i) then AliasUsed else Failed(message)
  {
    MentionsExactly(message, "unknown anchor");
  }

  /** A quoted scalar is text whatever it looks like, and a plain one is null, a flag, a number or text by its form. */
  lemma ScalarsAreRead(text: string, tag: Option<string>)
    ensures Denote(Written(text, false, tag)) == Leaf(Str(text), tag)
    ensures Denote(Written(text, true, tag)) == Leaf(ClassifyPlain(text), tag)
    ensures ClassifyPlain(text).Str? ==> ClassifyPlain(text).text == text
  {
  }

  /** The parser sends its events to a new builder; `failure` is the error it may end with. */
  method ParseFirstDocument(events: seq<Event>, failure: Option<string>) returns (r: Result<Node, Problem>)
    ensures failure.Some? ==> r == Err(Reported(failure.value))
    ensures failure.None? && events == [] ==> r == Err(NoDocument)
    ensures forall docs: seq<Source> | docs != [] && events == Documents(docs) && failure.None? :: r == Ok(Denote(docs[0]))
  {
    var builder := new DomBuilder();
    for i := 0 to |events|
      invariant fresh(builder)
      invariant Feed(Builder([], None), events) == Feed(builder.View(), events[i..])
    {
      assert events[i..][1..] == events[i + 1..];
      builder.Receive(events[i]);
    }
    assert events[|events|..] == [];
    if failure.Some? {
      return Err(Reported(failure.value));
    }
    forall docs: seq<Source> | docs != [] && events == Documents(docs)
      ensures builder.root == Some(Denote(docs[0]))
    {
      FirstDocumentIsRoot(docs);
    }
    if builder.root.None? {
      return Err(NoDocument);
    }
    return Ok(builder.root.value);
  }
}
