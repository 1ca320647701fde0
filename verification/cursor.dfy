/** The tree of AMQP values inside a Data object and the cursor that walks it. The tree lives in the proton library;
    what its calls do is what lib/codec/data.rb documents. */
module Cursors {
  import opened Wrappers
  import opened Values

  /** What a node holds. An integer is always in the range of its type. */
  datatype Datum =
    | NullDatum
    | BoolDatum(b: bool)
    | WholeDatum(width: Width, n: int)
    | DoubleDatum(x: real)
    | BinaryDatum(bytes: Bytes)
    | StringDatum(bytes: Bytes)
    | SymbolDatum(bytes: Bytes)
    | DescribedDatum
    | ArrayDatum(described: bool, element: Code)
    | ListDatum
    | MapDatum

  datatype Node = Node(datum: Datum, children: seq<Node>)

  /** Data#type of a node. */
  function TypeOf(n: Node): Code {
    match n.datum
    case NullDatum => NULL
    case BoolDatum(_) => BOOL
    case WholeDatum(w, _) => WHOLE(w)
    case DoubleDatum(_) => DOUBLE
    case BinaryDatum(_) => BINARY
    case StringDatum(_) => STRING
    case SymbolDatum(_) => SYMBOL
    case DescribedDatum => DESCRIBED
    case ArrayDatum(_, _) => ARRAY
    case ListDatum => LIST
    case MapDatum => MAP
  }

  /** A parent that has been entered, with its siblings on both sides. */
  datatype Frame = Frame(before: seq<Node>, datum: Datum, after: seq<Node>)

  /** The current node is the last of the first `passed` siblings; there is none before the first. */
  datatype Cursor = Cursor(siblings: seq<Node>, passed: nat, above: seq<Frame>)
  {
    ghost predicate Valid() { passed <= |siblings| }

    predicate HasCurrent() { 0 < passed <= |siblings| }

    function Current(): Node
      requires HasCurrent()
    {
      siblings[passed - 1]
    }
  }

  /** A mutator overwrites the next sibling or adds one, and makes it the current node. */
  function Added(c: Cursor, n: Node): (c': Cursor)
    requires c.Valid()
    ensures c'.Valid() && c'.passed == c.passed + 1 && c'.Current() == n
    ensures c'.above == c.above && c'.siblings[..c.passed] == c.siblings[..c.passed]
  {
    Cursor(if c.passed < |c.siblings| then c.siblings[c.passed := n] else c.siblings + [n], c.passed + 1, c.above)
  }

  function Entered(c: Cursor): (c': Cursor)
    requires c.Valid()
    ensures c'.Valid()
  {
    if c.passed == 0 then c
    else
      var n := c.siblings[c.passed - 1];
      Cursor(n.children, 0, c.above + [Frame(c.siblings[..c.passed - 1], n.datum, c.siblings[c.passed..])])
  }

  function Exited(c: Cursor): (c': Cursor)
    requires c.Valid()
    ensures c'.Valid() && |c'.above| <= |c.above|
  {
    if c.above == [] then c
    else
      var f := c.above[|c.above| - 1];
      Cursor(f.before + [Node(f.datum, c.siblings)] + f.after, |f.before| + 1, c.above[..|c.above| - 1])
  }

  function Advanced(c: Cursor): (c': Cursor)
    requires c.Valid()
    ensures c'.Valid()
  {
    if c.passed < |c.siblings| then c.(passed := c.passed + 1) else c
  }

  /** The whole tree: the siblings at the top once every parent has been left. */
  function Root(c: Cursor): seq<Node>
    requires c.Valid()
    decreases |c.above|
  {
    if c.above == [] then c.siblings else Root(Exited(c))
  }

  /** Leaving a node just entered, wherever the cursor is among its children, comes back to it. */
  lemma ExitUndoesEnter(c: Cursor, passed: nat)
    requires c.Valid() && c.HasCurrent() && passed <= |c.Current().children|
    ensures Exited(Entered(c).(passed := passed)) == c
    ensures Root(Entered(c).(passed := passed)) == Root(c)
  {
    var f := Entered(c).above[|c.above|];
    assert f.before + [Node(f.datum, c.Current().children)] + f.after == c.siblings;
  }

  /** Putting an empty node, entering it, filling it and leaving it is putting the filled node. */
  lemma FilledInside(c: Cursor, d: Datum, children: seq<Node>)
    requires c.Valid()
    ensures
      var inside := Entered(Added(c, Node(d, [])));
      inside.siblings == [] && inside.passed == 0
      && Exited(Cursor(children, |children|, inside.above)) == Added(c, Node(d, children))
  {
    var c1 := Added(c, Node(d, []));
    var f := Entered(c1).above[|c.above|];
    assert f.before == c.siblings[..c.passed];
    assert f.before + [Node(d, children)] + f.after == Added(c, Node(d, children)).siblings;
  }

  /** What stands at or before the cursor of `c` is still there: the parents, and the siblings up to it. */
  ghost predicate Keeps(c: Cursor, c': Cursor) {
    && c.Valid() && c'.Valid() && c.above <= c'.above
    && c.siblings[..c.passed] <= Level(c', |c.above|)
  }

  /** The nodes known to precede the cursor at a given depth. */
  ghost function Level(c: Cursor, depth: nat): seq<Node>
    requires c.Valid() && depth <= |c.above|
  {
    if depth == |c.above| then c.siblings[..c.passed] else c.above[depth].before
  }

  lemma KeepsTransitive(c: Cursor, c1: Cursor, c2: Cursor)
    requires Keeps(c, c1) && Keeps(c1, c2)
    ensures Keeps(c, c2)
  {
  }

  lemma AddedKeeps(c: Cursor, n: Node)
    requires c.Valid()
    ensures Keeps(c, Added(c, n)) && Keeps(c, Entered(Added(c, n)))
  {
    var c1 := Added(c, n);
    assert c1.siblings[..c1.passed][..c.passed] == c.siblings[..c.passed];
    assert c1.siblings[..c1.passed - 1] == c.siblings[..c.passed];
  }

  /** lib/codec/data.rb: the cursor as an object. */
  class Data {
    var at: Cursor

    constructor ()
      ensures at == Cursor([], 0, [])
    {
      at := Cursor([], 0, []);
    }

    method Clear()
      modifies this
      ensures at == Cursor([], 0, [])
    {
      at := Cursor([], 0, []);
    }

    /** The put methods: put_map, put_list, put_array, null, bool= and so on. */
    method Put(d: Datum)
      requires at.Valid()
      modifies this
      ensures at == Added(old(at), Node(d, []))
    {
      var n := Node(d, []);
      var last := at.passed == |at.siblings|;
      at := Cursor(if last then at.siblings + [n] else at.siblings[at.passed := n], at.passed + 1, at.above);
    }

    method Enter() returns (ok: bool)
      requires at.Valid()
      modifies this
      ensures at == Entered(old(at)) && ok == old(at).HasCurrent()
    {
      if at.passed == 0 { return false; }
      var i := at.passed - 1;
      var frame := Frame(at.siblings[..i], at.siblings[i].datum, at.siblings[i + 1..]);
      at := Cursor(at.siblings[i].children, 0, at.above + [frame]);
      ok := true;
    }

    method Exit()
      requires at.Valid()
      modifies this
      ensures at == Exited(old(at))
    {
      if at.above != [] {
        var top := |at.above| - 1;
        var f := at.above[top];
        at := Cursor(f.before + [Node(f.datum, at.siblings)] + f.after, |f.before| + 1, at.above[..top]);
      }
    }

    method Next() returns (ok: bool)
      requires at.Valid()
      modifies this
      ensures at == Advanced(old(at)) && ok == (old(at).passed < |old(at).siblings|)
    {
      ok := at.passed < |at.siblings|;
      if ok { at := at.(passed := at.passed + 1); }
    }

    /** type: nil when there is no current node. */
    function Type(): Option<Code>
      reads this
      requires at.Valid()
    {
      if at.passed == 0 then None else Some(TypeOf(at.Current()))
    }
  }
}
