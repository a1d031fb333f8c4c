/**
 * fbstring_core (folly/folly/FBString.h): strings that live in the object itself (small), in a block
 * of their own (medium) or in a reference-counted block shared by copies (large).
 *
 * All strings of the program and the blocks they own are the fields of one object, because what the
 * class promises is about several strings at once: a change made through one of them is never seen
 * through another, and the blocks are freed exactly when their last owner goes.  malloc hands in
 * addresses not in use together with their contents, which are arbitrary and at least as long as
 * requested (goodMallocSize).  Characters are bytes.
 */
module FbString {
  type Id = nat                       // a fbstring_core object
  type Addr = nat                     // what data_ points to
  type Byte = b: nat | b < 256
  type Text = seq<Byte>

  const MAX_SMALL := 23
  const MAX_MEDIUM := 254

  datatype Core =
    | Small(bytes: Text)
    | Medium(data: Addr, size: nat, cap: nat)
    | Large(data: Addr, size: nat, cap: nat)

  datatype Block = Block(counted: bool, refs: nat, chars: Text)

  datatype Mem = Mem(cores: map<Id, Core>, blocks: map<Addr, Block>)

  // ---------------------------------------------------------------- what a core means

  /** The last byte holds what is left of the room, so that it is the terminator of a full string. */
  function SmallSize(bytes: Text): nat {
    if |bytes| == MAX_SMALL + 1 && bytes[MAX_SMALL] <= MAX_SMALL then MAX_SMALL - bytes[MAX_SMALL] else 0
  }

  function SetSmallSize(bytes: Text, s: nat): (r: Text)
    requires |bytes| == MAX_SMALL + 1 && s <= MAX_SMALL
    ensures SmallOk(r) && SmallSize(r) == s && r[..s] == bytes[..s]
  {
    bytes[MAX_SMALL := MAX_SMALL - s][s := 0]
  }

  predicate SmallOk(bytes: Text) {
    |bytes| == MAX_SMALL + 1 && bytes[MAX_SMALL] <= MAX_SMALL && bytes[SmallSize(bytes)] == 0
  }

  predicate Uses(c: Core, a: Addr) { !c.Small? && c.data == a }

  function Size(c: Core): nat { if c.Small? then SmallSize(c.bytes) else c.size }

  /** The terminated text of a block or of the object itself. */
  function Chars(m: Mem, id: Id): Text {
    if id !in m.cores then []
    else
      var c := m.cores[id];
      if c.Small? then c.bytes else if c.data in m.blocks then m.blocks[c.data].chars else []
  }

  function View(m: Mem, id: Id): Text {
    if id in m.cores && Size(m.cores[id]) <= |Chars(m, id)| then Chars(m, id)[..Size(m.cores[id])] else []
  }

  function Owners(m: Mem, a: Addr): set<Id> { set id | id in m.cores && Uses(m.cores[id], a) }

  predicate Fits(c: Core, b: Block)
    requires !c.Small?
  {
    c.size <= c.cap && |b.chars| == c.cap + 1 && b.chars[c.size] == 0 && b.counted == c.Large?
  }

  /** Copies that share a block agree on everything; a medium string shares with nobody. */
  ghost predicate CoreOk(m: Mem, id: Id)
    requires id in m.cores
  {
    var c := m.cores[id];
    if c.Small? then SmallOk(c.bytes)
    else
      && c.data in m.blocks && Fits(c, m.blocks[c.data])
      && (forall other | other in Owners(m, c.data) :: m.cores[other] == c && (c.Medium? ==> other == id))
  }

  /** No block without an owner, and the count is the number of owners. */
  ghost predicate BlockOk(m: Mem, a: Addr)
    requires a in m.blocks
  {
    Owners(m, a) != {} && (m.blocks[a].counted ==> m.blocks[a].refs == |Owners(m, a)|)
  }

  ghost predicate Ok(m: Mem) {
    && (forall id {:trigger CoreOk(m, id)} | id in m.cores :: CoreOk(m, id))
    && (forall a {:trigger BlockOk(m, a)} | a in m.blocks :: BlockOk(m, a))
  }

  /** The strings other than id are the same strings as before. */
  ghost predicate OthersSame(m: Mem, m': Mem, id: Id) {
    forall x | x in m.cores && x != id :: x in m'.cores && View(m', x) == View(m, x)
  }

  // ---------------------------------------------------------------- the four ways ownership changes

  function Hold(m: Mem, id: Id, c: Core, b: Block): Mem
    requires !c.Small?
  {
    Mem(m.cores[id := c], m.blocks[c.data := b])
  }

  /** destroyMediumLarge: a medium block is freed, a large one when the count was one. */
  function Drop(m: Mem, id: Id): Mem
    requires id in m.cores
  {
    var c := m.cores[id];
    var rest := m.cores - {id};
    if c.Small? || c.data !in m.blocks then Mem(rest, m.blocks)
    else if c.Medium? || m.blocks[c.data].refs <= 1 then Mem(rest, m.blocks - {c.data})
    else Mem(rest, m.blocks[c.data := m.blocks[c.data].(refs := m.blocks[c.data].refs - 1)])
  }

  lemma SmallKeeps(m: Mem, id: Id, bytes: Text)
    requires Ok(m) && id !in m.cores && SmallOk(bytes)
    ensures var m' := m.(cores := m.cores[id := Small(bytes)]);
      Ok(m') && OthersSame(m, m', id) && View(m', id) == bytes[..SmallSize(bytes)]
  {
    var m' := m.(cores := m.cores[id := Small(bytes)]);
    forall a ensures Owners(m', a) == Owners(m, a) { }
    forall x | x in m'.cores ensures CoreOk(m', x) { if x != id { assert CoreOk(m, x); } }
    forall a | a in m'.blocks ensures BlockOk(m', a) { assert BlockOk(m, a); }
  }

  lemma HoldKeeps(m: Mem, id: Id, c: Core, b: Block)
    requires Ok(m) && id !in m.cores && !c.Small? && c.data !in m.blocks && Fits(c, b) && (b.counted ==> b.refs == 1)
    ensures Ok(Hold(m, id, c, b)) && OthersSame(m, Hold(m, id, c, b), id)
    ensures View(Hold(m, id, c, b), id) == b.chars[..c.size]
  {
    var m' := Hold(m, id, c, b);
    forall x | x in m.cores ensures !Uses(m.cores[x], c.data) { assert CoreOk(m, x); }
    forall a ensures Owners(m', a) == if a == c.data then {id} else Owners(m, a) { }
    forall x | x in m'.cores ensures CoreOk(m', x) { if x != id { assert CoreOk(m, x); } }
    forall a | a in m'.blocks ensures BlockOk(m', a) { if a != c.data { assert BlockOk(m, a); } }
  }

  /** copyLarge: the new string joins the owners. */
  function Share(m: Mem, id: Id, rhs: Id): Mem
    requires rhs in m.cores && m.cores[rhs].Large? && m.cores[rhs].data in m.blocks
  {
    var c := m.cores[rhs];
    Hold(m, id, c, m.blocks[c.data].(refs := m.blocks[c.data].refs + 1))
  }

  lemma ShareOwners(m: Mem, id: Id, rhs: Id, a: Addr)
    requires id !in m.cores && rhs in m.cores && m.cores[rhs].Large? && m.cores[rhs].data in m.blocks
    ensures Owners(Share(m, id, rhs), a) == if a == m.cores[rhs].data then Owners(m, a) + {id} else Owners(m, a)
  {
  }

  lemma ShareCore(m: Mem, id: Id, rhs: Id, x: Id)
    requires Ok(m) && id !in m.cores && rhs in m.cores && m.cores[rhs].Large? && m.cores[rhs].data in m.blocks
    requires x in m.cores
    ensures CoreOk(Share(m, id, rhs), x) && View(Share(m, id, rhs), x) == View(m, x)
  {
    var c := m.cores[x];
    assert CoreOk(m, x);
    if !c.Small? {
      ShareOwners(m, id, rhs, c.data);
      if c.data == m.cores[rhs].data { assert rhs in Owners(m, c.data); }
    }
  }

  lemma ShareKeeps(m: Mem, id: Id, rhs: Id)
    requires Ok(m) && id !in m.cores && rhs in m.cores && m.cores[rhs].Large? && m.cores[rhs].data in m.blocks
    ensures Ok(Share(m, id, rhs)) && OthersSame(m, Share(m, id, rhs), id) && View(Share(m, id, rhs), id) == View(m, rhs)
  {
    var m' := Share(m, id, rhs);
    forall x | x in m.cores ensures CoreOk(m', x) && View(m', x) == View(m, x) { ShareCore(m, id, rhs, x); }
    ShareOwners(m, id, rhs, m.cores[rhs].data);
    assert CoreOk(m', rhs) && CoreOk(m', id);
    forall a | a in m'.blocks ensures BlockOk(m', a) { assert BlockOk(m, a); ShareOwners(m, id, rhs, a); }
  }

  /** The last owner takes the block with it, and only the last one. */
  lemma DropKeeps(m: Mem, id: Id)
    requires Ok(m) && id in m.cores
    ensures Ok(Drop(m, id)) && OthersSame(m, Drop(m, id), id)
    ensures Drop(m, id).cores.Keys == m.cores.Keys - {id}
    ensures var c := m.cores[id]; !c.Small? && Owners(m, c.data) == {id} ==>
      Drop(m, id) == Mem(m.cores - {id}, m.blocks - {c.data})
  {
    var m', c := Drop(m, id), m.cores[id];
    assert CoreOk(m, id);
    forall a ensures Owners(m', a) == Owners(m, a) - {id} { }
    if !c.Small? {
      assert BlockOk(m, c.data) && id in Owners(m, c.data);
      OneOwner(Owners(m, c.data), id);
      if c.Medium? { assert Owners(m, c.data) == {id}; }
    }
    forall x | x in m'.cores ensures CoreOk(m', x) && View(m', x) == View(m, x) { DropOther(m, id, x); }
    forall a | a in m'.blocks ensures BlockOk(m', a) { DropBlock(m, id, a); }
  }

  lemma OneOwner(q: set<Id>, id: Id)
    requires id in q
    ensures |q| <= 1 <==> q == {id}
    ensures |q - {id}| == |q| - 1
  {
    assert |q - {id}| == |q| - 1;
    assert |q| <= 1 ==> q - {id} == {};
    assert q - {id} == {} ==> q == {id};
  }

  lemma DropOther(m: Mem, id: Id, x: Id)
    requires Ok(m) && id in m.cores && x in m.cores && x != id
    ensures CoreOk(Drop(m, id), x) && View(Drop(m, id), x) == View(m, x)
  {
    var m' := Drop(m, id);
    assert CoreOk(m, x) && CoreOk(m, id);
    forall a ensures Owners(m', a) == Owners(m, a) - {id} { }
    var c := m.cores[x];
    if !c.Small? && Uses(m.cores[id], c.data) {
      assert BlockOk(m, c.data) && {x, id} <= Owners(m, c.data);
      OneOwner(Owners(m, c.data), id);
    }
  }

  lemma DropBlock(m: Mem, id: Id, a: Addr)
    requires Ok(m) && id in m.cores && a in Drop(m, id).blocks
    ensures BlockOk(Drop(m, id), a)
  {
    var m' := Drop(m, id);
    assert CoreOk(m, id) && BlockOk(m, a);
    assert Owners(m', a) == Owners(m, a) - {id};
    if id in Owners(m, a) { OneOwner(Owners(m, a), id); }
  }

  /** A string that is alone with its block may rewrite it, or move to another one. */
  lemma EditKeeps(m: Mem, id: Id, c: Core, b: Block)
    requires Ok(m) && id in m.cores && !m.cores[id].Small? && Owners(m, m.cores[id].data) == {id}
    requires !c.Small? && Fits(c, b) && (b.counted ==> b.refs == 1)
    requires (c.data == m.cores[id].data || c.data !in m.blocks)
    ensures var m' := Hold(Drop(m, id), id, c, b); Ok(m') && OthersSame(m, m', id) && View(m', id) == b.chars[..c.size]
    ensures c.data == m.cores[id].data ==> Hold(Drop(m, id), id, c, b) == Hold(m, id, c, b)
  {
    DropKeeps(m, id);
    HoldKeeps(Drop(m, id), id, c, b);
    if c.data == m.cores[id].data { assert Hold(Drop(m, id), id, c, b) == Hold(m, id, c, b); }
  }

  lemma SmallEditKeeps(m: Mem, id: Id, bytes: Text)
    requires Ok(m) && id in m.cores && m.cores[id].Small? && SmallOk(bytes)
    ensures var m' := m.(cores := m.cores[id := Small(bytes)]);
      Ok(m') && OthersSame(m, m', id) && View(m', id) == bytes[..SmallSize(bytes)]
  {
    DropKeeps(m, id);
    SmallKeeps(Drop(m, id), id, bytes);
    assert (m.cores - {id})[id := Small(bytes)] == m.cores[id := Small(bytes)];
  }

  /** Whatever a string held, it can let go of it and hold a fresh block. */
  lemma ReplaceKeeps(m: Mem, id: Id, c: Core, b: Block)
    requires Ok(m) && id in m.cores && !c.Small? && c.data !in m.blocks && Fits(c, b) && (b.counted ==> b.refs == 1)
    ensures var m' := Hold(Drop(m, id), id, c, b); Ok(m') && OthersSame(m, m', id) && View(m', id) == b.chars[..c.size]
    ensures Hold(Drop(m, id), id, c, b).cores == m.cores[id := c]
  {
    DropKeeps(m, id);
    HoldKeeps(Drop(m, id), id, c, b);
    assert (m.cores - {id})[id := c] == m.cores[id := c];
  }

  function Other(x: Id, y: Id, z: Id): Id { if z == x then y else if z == y then x else z }

  ghost predicate Swapped(m: Mem, m': Mem, x: Id, y: Id) {
    && m'.blocks == m.blocks && m'.cores.Keys == m.cores.Keys && x in m.cores && y in m.cores
    && forall z | z in m.cores :: m'.cores[z] == m.cores[Other(x, y, z)]
  }

  lemma SwapOwners(m: Mem, m': Mem, x: Id, y: Id, a: Addr)
    requires Swapped(m, m', x, y)
    ensures |Owners(m', a)| == |Owners(m, a)| && forall z :: z in Owners(m', a) <==> Other(x, y, z) in Owners(m, a)
  {
    var q, q' := Owners(m, a), Owners(m', a);
    forall z ensures z in q' <==> Other(x, y, z) in q { }
    assert q' - {x, y} == q - {x, y};
    SwapCount(q, q', x, y);
  }

  lemma SwapCount(q: set<Id>, q': set<Id>, x: Id, y: Id)
    requires q' - {x, y} == q - {x, y} && (x in q' <==> y in q) && (y in q' <==> x in q)
    ensures |q'| == |q|
  {
    var rest := q - {x, y};
    if x in q && y in q {
      assert q' == q;
    } else if x in q {
      assert q == rest + {x} && q' == rest + {y};
    } else if y in q {
      assert q == rest + {y} && q' == rest + {x};
    } else {
      assert q == rest && q' == q' - {x, y};
    }
  }

  lemma SwapCore(m: Mem, m': Mem, x: Id, y: Id, z: Id)
    requires Swapped(m, m', x, y) && z in m.cores && CoreOk(m, Other(x, y, z))
    ensures CoreOk(m', z) && View(m', z) == View(m, Other(x, y, z))
  {
    var c := m'.cores[z];
    if !c.Small? {
      SwapOwners(m, m', x, y, c.data);
      forall other | other in Owners(m', c.data) ensures m'.cores[other] == c && (c.Medium? ==> other == z) {
        assert Other(x, y, other) in Owners(m, c.data);
      }
    }
  }

  lemma SwapKeeps(m: Mem, m': Mem, x: Id, y: Id)
    requires Ok(m) && Swapped(m, m', x, y)
    ensures Ok(m') && forall z | z in m.cores :: View(m', z) == View(m, Other(x, y, z))
  {
    forall z | z in m.cores ensures CoreOk(m', z) && View(m', z) == View(m, Other(x, y, z)) {
      assert CoreOk(m, Other(x, y, z));
      SwapCore(m, m', x, y, z);
    }
    forall a | a in m'.blocks ensures BlockOk(m', a) {
      assert BlockOk(m, a);
      SwapOwners(m, m', x, y, a);
    }
  }

  // ---------------------------------------------------------------- the class

  function Max(a: nat, b: nat): nat { if a < b then b else a }

  /** podCopy of a terminated text over fresh memory. */
  function Over(text: Text, raw: Text): (r: Text)
    requires |text| < |raw|
    ensures |r| == |raw| && r[..|text|] == text && r[|text|] == 0
  {
    text + [0] + raw[|text| + 1..]
  }

  function Resized(c: Core, size: nat): Core
    requires !c.Small?
  {
    if c.Large? then Large(c.data, size, c.cap) else Medium(c.data, size, c.cap)
  }

  /** With the small representation compiled out, only the default constructor still uses it. */
  predicate SsoOk(disableSSO: bool, cores: map<Id, Core>) {
    disableSSO ==> forall id | id in cores :: cores[id].Small? ==> SmallSize(cores[id].bytes) == 0
  }

  class Strings {
    const disableSSO: bool
    var cores: map<Id, Core>
    var blocks: map<Addr, Block>

    function Memory(): Mem
      reads this
    {
      Mem(cores, blocks)
    }

    ghost predicate Valid()
      reads this
    {
      Ok(Memory()) && SsoOk(disableSSO, cores)
    }

    /** The text of a string. */
    function Text(id: Id): Text
      reads this
    {
      View(Memory(), id)
    }

    constructor (sso: bool)
      ensures Valid() && cores == map[] && blocks == map[] && disableSSO == !sso
    {
      disableSSO := !sso;
      cores, blocks := map[], map[];
    }

    predicate IsShared(id: Id)
      reads this
    {
      id in cores && cores[id].Large? && cores[id].data in blocks && blocks[cores[id].data].refs > 1
    }

    /** Some other string points to the same block. */
    ghost predicate HasTwin(id: Id)
      reads this
    {
      && id in cores && !cores[id].Small?
      && exists other | other in cores :: other != id && Uses(cores[other], cores[id].data)
    }

    /**
     * The blocks in use are exactly those some string points to: nothing dangles and nothing leaks.
     * The reference count calls a string shared exactly when another string points to its block.
     */
    lemma BlocksAreOwned()
      requires Valid()
      ensures forall a :: a in blocks <==> exists id :: id in cores && Uses(cores[id], a)
      ensures cores == map[] ==> blocks == map[]
      ensures forall id | id in cores :: IsShared(id) <==> HasTwin(id)
    {
      var m := Memory();
      forall a ensures a in m.blocks <==> exists id :: id in m.cores && Uses(m.cores[id], a) {
        if a in m.blocks { assert BlockOk(m, a); var id :| id in Owners(m, a); }
        if id :| id in m.cores && Uses(m.cores[id], a) { assert CoreOk(m, id); }
      }
      forall id | id in cores ensures IsShared(id) <==> HasTwin(id) { CountSeesTwins(id); }
    }

    lemma CountSeesTwins(id: Id)
      requires Valid() && id in cores
      ensures IsShared(id) <==> HasTwin(id)
    {
      var m := Memory();
      assert CoreOk(m, id);
      if !cores[id].Small? {
        var owners := Owners(m, cores[id].data);
        assert BlockOk(m, cores[id].data);
        if IsShared(id) {
          assert owners != {id};
          var other :| other in owners && other != id;
        }
        if other :| other in cores && other != id && Uses(cores[other], cores[id].data) {
          assert CoreOk(m, other);
          assert |owners - {id}| >= 1 by { assert other in owners - {id}; }
        }
      }
    }

    function Capacity(id: Id): nat
      requires id in cores
      reads this
    {
      if cores[id].Small? then MAX_SMALL else if IsShared(id) then cores[id].size else cores[id].cap
    }

    /** A string that is not shared is the only owner of its block. */
    lemma Alone(id: Id)
      requires Valid() && id in cores && !cores[id].Small? && !IsShared(id)
      ensures cores[id].data in blocks && Owners(Memory(), cores[id].data) == {id}
      ensures Fits(cores[id], blocks[cores[id].data])
    {
      var m, c := Memory(), cores[id];
      assert CoreOk(m, id) && BlockOk(m, c.data) && id in Owners(m, c.data);
      OneOwner(Owners(m, c.data), id);
      if c.Medium? { assert Owners(m, c.data) == {id}; }
    }

    /** The constructor from a text. */
    method Construct(id: Id, text: Text, junk: Text, a: Addr, raw: Text)
      requires Valid() && id !in cores && |junk| == MAX_SMALL + 1 && a !in blocks && |raw| > |text|
      modifies this
      ensures Valid() && cores.Keys == old(cores).Keys + {id} && OthersSame(old(Memory()), Memory(), id)
      ensures Text(id) == text && !IsShared(id)
      ensures cores[id].Small? <==> !disableSSO && |text| <= MAX_SMALL
      ensures cores[id].Large? <==> |text| > MAX_MEDIUM
      ensures blocks.Keys <= old(blocks).Keys + {a}
    {
      if !disableSSO && |text| <= MAX_SMALL {
        var bytes := SetSmallSize(text + junk[|text|..], |text|);
        SmallKeeps(Memory(), id, bytes);
        cores := cores[id := Small(bytes)];
      } else {
        var cap := |raw| - 1;
        var c := if |text| <= MAX_MEDIUM then Medium(a, |text|, cap) else Large(a, |text|, cap);
        var b := Block(c.Large?, 1, Over(text, raw));
        HoldKeeps(Memory(), id, c, b);
        cores, blocks := cores[id := c], blocks[a := b];
      }
    }

    /** The copy constructor: small strings bitwise, medium ones eagerly, large ones by reference. */
    method Copy(id: Id, rhs: Id, a: Addr, raw: Text)
      requires Valid() && rhs in cores && id !in cores && a !in blocks && |raw| > |Text(rhs)|
      modifies this
      ensures Valid() && cores.Keys == old(cores).Keys + {id} && OthersSame(old(Memory()), Memory(), id)
      ensures Text(id) == old(Text(rhs))
      ensures old(cores)[rhs].Large? ==> IsShared(id) && blocks.Keys == old(blocks).Keys
    {
      var m, c := Memory(), cores[rhs];
      assert CoreOk(m, rhs);
      match c
      case Small(bytes) =>
        SmallKeeps(m, id, bytes);
        cores := cores[id := c];
      case Medium(data, size, _) =>
        var b := Block(false, 1, Over(blocks[data].chars[..size], raw));
        HoldKeeps(m, id, Medium(a, size, |raw| - 1), b);
        cores, blocks := cores[id := Medium(a, size, |raw| - 1)], blocks[a := b];
      case Large(data, _, _) =>
        ShareKeeps(m, id, rhs);
        assert BlockOk(m, data) && rhs in Owners(m, data);
        cores, blocks := cores[id := c], blocks[data := blocks[data].(refs := blocks[data].refs + 1)];
    }

    /** The destructor. */
    method Destroy(id: Id)
      requires Valid() && id in cores
      modifies this
      ensures Valid() && cores.Keys == old(cores).Keys - {id} && OthersSame(old(Memory()), Memory(), id)
      ensures blocks.Keys <= old(blocks).Keys
      ensures forall z | z in cores :: cores[z] == old(cores)[z] && (IsShared(z) ==> old(IsShared(z)))
    {
      DropKeeps(Memory(), id);
      var m := Drop(Memory(), id);
      cores, blocks := m.cores, m.blocks;
    }

    method Swap(x: Id, y: Id)
      requires Valid() && x in cores && y in cores
      modifies this
      ensures Valid() && cores.Keys == old(cores).Keys && blocks == old(blocks)
      ensures Text(x) == old(Text(y)) && Text(y) == old(Text(x)) && cores[x] == old(cores)[y]
      ensures cores[y] == old(cores)[x]
      ensures forall z | z in cores && z != x && z != y :: Text(z) == old(Text(z))
    {
      var m := Memory();
      cores := cores[x := cores[y]][y := cores[x]];
      assert Swapped(m, Memory(), x, y);
      SwapKeeps(m, Memory(), x, y);
    }

    /** The move constructor leaves the empty string behind. */
    method Move(id: Id, goner: Id, junk: Text)
      requires Valid() && goner in cores && id !in cores && |junk| == MAX_SMALL + 1
      modifies this
      ensures Valid() && cores.Keys == old(cores).Keys + {id} && blocks == old(blocks)
      ensures Text(id) == old(Text(goner)) && Text(goner) == []
      ensures forall z | z in cores && z != id && z != goner :: Text(z) == old(Text(z))
    {
      var bytes := SetSmallSize(junk, 0);
      var m := Memory();
      SmallKeeps(m, id, bytes);
      ghost var m1 := m.(cores := m.cores[id := Small(bytes)]);
      cores := cores[id := cores[goner]][goner := Small(bytes)];
      assert Swapped(m1, Memory(), id, goner);
      SwapKeeps(m1, Memory(), id, goner);
    }

    /** The default constructor. */
    method ConstructEmpty(id: Id, junk: Text)
      requires Valid() && id !in cores && |junk| == MAX_SMALL + 1
      modifies this
      ensures Valid() && cores.Keys == old(cores).Keys + {id} && OthersSame(old(Memory()), Memory(), id)
      ensures blocks == old(blocks)
      ensures cores[id].Small? && Text(id) == []
    {
      var bytes := SetSmallSize(junk, 0);
      SmallKeeps(Memory(), id, bytes);
      cores := cores[id := Small(bytes)];
    }

    /** unshare: the string gets a block of its own with what it showed before. */
    method Unshare(id: Id, minCapacity: nat, a: Addr, raw: Text)
      requires Valid() && id in cores && cores[id].Large? && a !in blocks && |raw| > Max(minCapacity, cores[id].cap)
      modifies this
      ensures Valid() && cores.Keys == old(cores).Keys && OthersSame(old(Memory()), Memory(), id)
      ensures Text(id) == old(Text(id)) && cores[id] == Large(a, old(cores)[id].size, |raw| - 1) && !IsShared(id)
    {
      var m, c := Memory(), cores[id];
      assert CoreOk(m, id);
      var b := Block(true, 1, Over(blocks[c.data].chars[..c.size], raw));
      ReplaceKeeps(m, id, Large(a, c.size, |raw| - 1), b);
      var dropped := Drop(m, id);
      cores, blocks := cores[id := Large(a, c.size, |raw| - 1)], dropped.blocks[a := b];
    }

    /** mutableData: afterwards nobody else looks at the buffer. */
    method MutableData(id: Id, a: Addr, raw: Text)
      requires Valid() && id in cores && (IsShared(id) ==> a !in blocks && |raw| > cores[id].cap)
      modifies this
      ensures Valid() && cores.Keys == old(cores).Keys && OthersSame(old(Memory()), Memory(), id)
      ensures Text(id) == old(Text(id)) && !IsShared(id)
      ensures !old(IsShared(id)) ==> cores == old(cores) && blocks == old(blocks)
    {
      if cores[id].Large? && IsShared(id) { Unshare(id, 0, a, raw); }
    }

    /** A store through the pointer that mutableData or expandNoinit has returned. */
    method Store(id: Id, i: nat, ch: Byte)
      requires Valid() && id in cores && !IsShared(id) && i < |Text(id)|
      modifies this
      ensures Valid() && cores.Keys == old(cores).Keys && OthersSame(old(Memory()), Memory(), id)
      ensures Text(id) == old(Text(id))[i := ch] && !IsShared(id)
    {
      var m, c := Memory(), cores[id];
      assert CoreOk(m, id);
      if c.Small? {
        var bytes := c.bytes[i := ch];
        SmallEditKeeps(m, id, bytes);
        cores := cores[id := Small(bytes)];
      } else {
        Alone(id);
        var b := blocks[c.data].(chars := blocks[c.data].chars[i := ch]);
        assert BlockOk(m, c.data);
        EditKeeps(m, id, c, b);
        assert cores[id := c] == cores;
        blocks := blocks[c.data := b];
      }
    }

    /** s[i] = ch on a string that may be shared: the other copies keep what they had. */
    method SetChar(id: Id, i: nat, ch: Byte, a: Addr, raw: Text)
      requires Valid() && id in cores && i < |Text(id)| && (IsShared(id) ==> a !in blocks && |raw| > cores[id].cap)
      modifies this
      ensures Valid() && cores.Keys == old(cores).Keys && OthersSame(old(Memory()), Memory(), id)
      ensures Text(id) == old(Text(id))[i := ch] && !IsShared(id)
    {
      MutableData(id, a, raw);
      Store(id, i, ch);
    }

    /** shrinkMedium, for any string that is alone with its block. */
    method ShrinkAlone(id: Id, delta: nat)
      requires Valid() && id in cores && !cores[id].Small? && !IsShared(id) && delta <= |Text(id)|
      modifies this
      ensures Valid() && cores.Keys == old(cores).Keys && OthersSame(old(Memory()), Memory(), id)
      ensures Text(id) == old(Text(id))[..|old(Text(id))| - delta]
    {
      var m, c := Memory(), cores[id];
      Alone(id);
      assert BlockOk(m, c.data);
      var c' := Resized(c, c.size - delta);
      var b := blocks[c.data].(chars := blocks[c.data].chars[c'.size := 0]);
      EditKeeps(m, id, c', b);
      cores, blocks := cores[id := c'], blocks[c.data := b];
    }

    /** shrinkLarge: a shared string must not write its terminator into the common block. */
    method ShrinkShared(id: Id, delta: nat, tmp: Id, junk: Text, a: Addr, raw: Text)
      requires Valid() && id in cores && cores[id].Large? && delta <= |Text(id)| && tmp !in cores
      requires |junk| == MAX_SMALL + 1
      requires a !in blocks && |raw| > |Text(id)| - delta
      modifies this
      ensures Valid() && cores.Keys == old(cores).Keys && OthersSame(old(Memory()), Memory(), id)
      ensures Text(id) == old(Text(id))[..|old(Text(id))| - delta]
    {
      if delta > 0 {
        assert CoreOk(Memory(), id);
        Construct(tmp, Text(id)[..|Text(id)| - delta], junk, a, raw);
        Swap(tmp, id);
        Destroy(tmp);
      }
    }

    method Shrink(id: Id, delta: nat, tmp: Id, junk: Text, a: Addr, raw: Text)
      requires Valid() && id in cores && delta <= |Text(id)| && tmp !in cores && |junk| == MAX_SMALL + 1
      requires a !in blocks && |raw| > |Text(id)| - delta
      modifies this
      ensures Valid() && cores.Keys == old(cores).Keys && OthersSame(old(Memory()), Memory(), id)
      ensures Text(id) == old(Text(id))[..|old(Text(id))| - delta]
    {
      assert CoreOk(Memory(), id);
      if cores[id].Small? {
        var bytes := SetSmallSize(cores[id].bytes, SmallSize(cores[id].bytes) - delta);
        SmallEditKeeps(Memory(), id, bytes);
        cores := cores[id := Small(bytes)];
      } else if !IsShared(id) {
        ShrinkAlone(id, delta);
      } else {
        ShrinkShared(id, delta, tmp, junk, a, raw);
      }
    }

    method ReserveSmall(id: Id, minCapacity: nat, a: Addr, raw: Text)
      requires Valid() && id in cores && cores[id].Small? && a !in blocks && |raw| > minCapacity
      modifies this
      ensures Valid() && cores.Keys == old(cores).Keys && OthersSame(old(Memory()), Memory(), id)
      ensures Text(id) == old(Text(id)) && !IsShared(id) && Capacity(id) >= minCapacity
      ensures blocks.Keys <= old(blocks).Keys + {a}
      ensures minCapacity > MAX_MEDIUM ==> cores[id] == Large(a, |Text(id)|, |raw| - 1)
      ensures cores[id].Small? <==> !disableSSO && minCapacity <= MAX_SMALL
    {
      var m, c := Memory(), cores[id];
      assert CoreOk(m, id);
      var size := SmallSize(c.bytes);
      if !disableSSO && minCapacity <= MAX_SMALL { return; }
      var big := minCapacity > MAX_MEDIUM;
      var c' := if big then Large(a, size, |raw| - 1) else Medium(a, size, |raw| - 1);
      var b := Block(big, 1, Over(c.bytes[..size], raw));
      ReplaceKeeps(m, id, c', b);
      cores, blocks := cores[id := c'], blocks[a := b];
    }

    /** reserveLarge: a shared string is forked whatever was asked for. */
    method ReserveLarge(id: Id, minCapacity: nat, inPlace: bool, a: Addr, raw: Text)
      requires Valid() && id in cores && cores[id].Large? && a !in blocks
      requires |raw| > (if IsShared(id) then Max(minCapacity, cores[id].cap) else minCapacity)
      modifies this
      ensures Valid() && cores.Keys == old(cores).Keys && OthersSame(old(Memory()), Memory(), id)
      ensures Text(id) == old(Text(id)) && !IsShared(id) && !cores[id].Small? && Capacity(id) >= minCapacity
    {
      var m, c := Memory(), cores[id];
      assert CoreOk(m, id);
      if IsShared(id) {
        Unshare(id, minCapacity, a, raw);
      } else if minCapacity > c.cap {
        Alone(id);
        var c' := Large(if inPlace then c.data else a, c.size, |raw| - 1);
        var b := Block(true, 1, Over(blocks[c.data].chars[..c.size], raw));
        EditKeeps(m, id, c', b);
        assert Hold(Drop(m, id), id, c', b).cores == cores[id := c'];
        cores, blocks := cores[id := c'], (blocks - {c.data})[c'.data := b];
      }
    }

    /** smartRealloc: the block may stay where it is. */
    method GrowMedium(id: Id, minCapacity: nat, inPlace: bool, a: Addr, raw: Text)
      requires Valid() && id in cores && cores[id].Medium? && a !in blocks && |raw| > minCapacity > cores[id].cap
      modifies this
      ensures Valid() && cores.Keys == old(cores).Keys && OthersSame(old(Memory()), Memory(), id)
      ensures Text(id) == old(Text(id)) && cores[id].Medium? && cores[id].cap >= minCapacity
    {
      var m, c := Memory(), cores[id];
      Alone(id);
      var c' := Medium(if inPlace then c.data else a, c.size, |raw| - 1);
      var b := Block(false, 1, Over(blocks[c.data].chars[..c.size], raw));
      EditKeeps(m, id, c', b);
      assert Hold(Drop(m, id), id, c', b).cores == cores[id := c'];
      cores, blocks := cores[id := c'], (blocks - {c.data})[c'.data := b];
    }

    /** reserveMedium: the block grows, or a temporary large string takes over. */
    method ReserveMedium(id: Id, minCapacity: nat, tmp: Id, junk: Text, inPlace: bool, a: Addr, raw: Text)
      requires Valid() && id in cores && cores[id].Medium? && a !in blocks && |raw| > minCapacity
      requires tmp !in cores && |junk| == MAX_SMALL + 1
      modifies this
      ensures Valid() && cores.Keys == old(cores).Keys && OthersSame(old(Memory()), Memory(), id)
      ensures Text(id) == old(Text(id)) && !IsShared(id) && !cores[id].Small? && Capacity(id) >= minCapacity
    {
      assert CoreOk(Memory(), id);
      if minCapacity <= cores[id].cap { return; }
      if minCapacity <= MAX_MEDIUM {
        GrowMedium(id, minCapacity, inPlace, a, raw);
      } else {
        Nascent(tmp, Text(id), minCapacity, junk, a, raw);
        Swap(tmp, id);
        Destroy(tmp);
      }
    }

    /** A large string with the given room takes a copy of a text. */
    method Nascent(tmp: Id, text: Text, minCapacity: nat, junk: Text, a: Addr, raw: Text)
      requires Valid() && tmp !in cores && |junk| == MAX_SMALL + 1 && a !in blocks
      requires |raw| > minCapacity > MAX_MEDIUM && |text| <= minCapacity
      modifies this
      ensures Valid() && cores.Keys == old(cores).Keys + {tmp} && OthersSame(old(Memory()), Memory(), tmp)
      ensures Text(tmp) == text && cores[tmp] == Large(a, |text|, |raw| - 1) && !IsShared(tmp)
    {
      ConstructEmpty(tmp, junk);
      ReserveSmall(tmp, minCapacity, a, raw);
      FillNascent(tmp, text);
    }

    /** The text is copied into the room of a fresh large string. */
    method FillNascent(tmp: Id, text: Text)
      requires Valid() && tmp in cores && cores[tmp].Large? && !IsShared(tmp) && |text| <= cores[tmp].cap
      modifies this
      ensures Valid() && cores == old(cores)[tmp := Resized(old(cores)[tmp], |text|)]
      ensures OthersSame(old(Memory()), Memory(), tmp) && Text(tmp) == text && !IsShared(tmp)
    {
      var m, c := Memory(), cores[tmp];
      Alone(tmp);
      assert BlockOk(m, c.data);
      var b := blocks[c.data].(chars := Over(text, blocks[c.data].chars));
      EditKeeps(m, tmp, Resized(c, |text|), b);
      cores, blocks := cores[tmp := Resized(c, |text|)], blocks[c.data := b];
    }

    /** What reserve asks malloc for. */
    function Request(id: Id, minCapacity: nat): nat
      requires id in cores
      reads this
    {
      if IsShared(id) then Max(minCapacity, cores[id].cap) else minCapacity
    }

    method Reserve(id: Id, minCapacity: nat, tmp: Id, junk: Text, inPlace: bool, a: Addr, raw: Text)
      requires Valid() && id in cores && a !in blocks && |raw| > Request(id, minCapacity) && tmp !in cores
      requires |junk| == MAX_SMALL + 1
      modifies this
      ensures Valid() && cores.Keys == old(cores).Keys && OthersSame(old(Memory()), Memory(), id)
      ensures Text(id) == old(Text(id)) && !IsShared(id) && Capacity(id) >= minCapacity
      ensures !old(cores)[id].Small? ==> !cores[id].Small?
    {
      match cores[id]
      case Small(_) => ReserveSmall(id, minCapacity, a, raw);
      case Medium(_, _, _) => ReserveMedium(id, minCapacity, tmp, junk, inPlace, a, raw);
      case Large(_, _, _) => ReserveLarge(id, minCapacity, inPlace, a, raw);
    }

    /** The capacity expandNoinit needs to have. */
    function Wanted(id: Id, delta: nat, expGrowth: bool): nat
      requires id in cores
      reads this
    {
      var newSz := Size(cores[id]) + delta;
      if !expGrowth then newSz
      else if cores[id].Small? then Max(newSz, 2 * MAX_SMALL)
      else Max(newSz, 1 + Capacity(id) * 3 / 2)
    }

    method ExpandSmall(id: Id, newSz: nat)
      requires Valid() && id in cores && cores[id].Small? && |Text(id)| <= newSz <= MAX_SMALL && !disableSSO
      modifies this
      ensures Valid() && cores.Keys == old(cores).Keys && OthersSame(old(Memory()), Memory(), id)
      ensures |Text(id)| == newSz && Text(id)[..|old(Text(id))|] == old(Text(id)) && cores[id].Small?
    {
      assert CoreOk(Memory(), id);
      var bytes := SetSmallSize(cores[id].bytes, newSz);
      SmallEditKeeps(Memory(), id, bytes);
      cores := cores[id := Small(bytes)];
    }

    /** expandNoinit: room first, then the new size and terminator. */
    method ExpandNoinit(id: Id, delta: nat, expGrowth: bool, tmp: Id, junk: Text, inPlace: bool, a: Addr, raw: Text)
      requires Valid() && id in cores && a !in blocks && tmp !in cores && |junk| == MAX_SMALL + 1
      requires |raw| > Request(id, Wanted(id, delta, expGrowth))
      modifies this
      ensures Valid() && cores.Keys == old(cores).Keys && OthersSame(old(Memory()), Memory(), id)
      ensures |Text(id)| == |old(Text(id))| + delta && Text(id)[..|old(Text(id))|] == old(Text(id))
      ensures delta > 0 ==> !IsShared(id)
    {
      assert CoreOk(Memory(), id);
      var newSz := Size(cores[id]) + delta;
      if cores[id].Small? {
        if !disableSSO && newSz <= MAX_SMALL {
          ExpandSmall(id, newSz);
          return;
        }
        ReserveSmall(id, Wanted(id, delta, expGrowth), a, raw);
      } else if newSz > Capacity(id) {
        Reserve(id, Wanted(id, delta, expGrowth), tmp, junk, inPlace, a, raw);
      }
      SetSize(id, newSz);
    }

    /** The end of expandNoinit; only an expansion by nothing can meet a shared string here. */
    method SetSize(id: Id, newSz: nat)
      requires Valid() && id in cores && !cores[id].Small? && |Text(id)| <= newSz <= Capacity(id)
      modifies this
      ensures Valid() && cores.Keys == old(cores).Keys && OthersSame(old(Memory()), Memory(), id)
      ensures |Text(id)| == newSz && Text(id)[..|old(Text(id))|] == old(Text(id))
      ensures IsShared(id) ==> newSz == |old(Text(id))|
    {
      var m, c := Memory(), cores[id];
      assert CoreOk(m, id) && BlockOk(m, c.data);
      var b := blocks[c.data].(chars := blocks[c.data].chars[newSz := 0]);
      if IsShared(id) {
        assert b.chars == blocks[c.data].chars && Resized(c, newSz) == c;
        assert cores[id := Resized(c, newSz)] == cores && blocks[c.data := b] == blocks;
      } else {
        Alone(id);
        EditKeeps(m, id, Resized(c, newSz), b);
      }
      cores, blocks := cores[id := Resized(c, newSz)], blocks[c.data := b];
    }

    method PushBack(id: Id, ch: Byte, tmp: Id, junk: Text, inPlace: bool, a: Addr, raw: Text)
      requires Valid() && id in cores && a !in blocks && tmp !in cores && |junk| == MAX_SMALL + 1
      requires |raw| > Request(id, Wanted(id, 1, true))
      modifies this
      ensures Valid() && cores.Keys == old(cores).Keys && OthersSame(old(Memory()), Memory(), id)
      ensures Text(id) == old(Text(id)) + [ch] && !IsShared(id)
    {
      var sz := |Text(id)|;
      ExpandNoinit(id, 1, true, tmp, junk, inPlace, a, raw);
      Store(id, sz, ch);
    }

    /** The constructor that takes over a block from malloc, terminator included. */
    method Acquire(id: Id, a: Addr, chars: Text, size: nat, junk: Text)
      requires Valid() && id !in cores && a !in blocks && size < |chars| && chars[size] == 0 && |junk| == MAX_SMALL + 1
      modifies this
      ensures Valid() && cores.Keys == old(cores).Keys + {id} && OthersSame(old(Memory()), Memory(), id)
      ensures Text(id) == chars[..size] && (a in blocks <==> size > 0)
    {
      if size > 0 {
        HoldKeeps(Memory(), id, Medium(a, size, |chars| - 1), Block(false, 1, chars));
        cores, blocks := cores[id := Medium(a, size, |chars| - 1)], blocks[a := Block(false, 1, chars)];
      } else {
        ConstructEmpty(id, junk);
      }
    }
  }
}

/** The words of the object: capacity_ shares its top byte with the last byte of the small buffer. */
module FbStringLayout {
  const SMALL: bv8 := 0
  const MEDIUM: bv8 := 0x80
  const LARGE: bv8 := 0x40
  const CATEGORY_MASK: bv8 := 0xC0

  function SetCapacity(cap: bv64, cat: bv8): bv64 { cap | ((cat as bv64) << 56) }

  function Capacity(word: bv64): bv64 { word & !((CATEGORY_MASK as bv64) << 56) }

  function LastByte(word: bv64): bv8 { ((word >> 56) & 0xFF) as bv8 }

  function Category(last: bv8): bv8 { last & CATEGORY_MASK }

  /** Capacities below 2^62 and the category come back; the small-string length never looks like one. */
  lemma CapacityRoundTrip(cap: bv64, cat: bv8)
    requires cap < 0x4000_0000_0000_0000 && (cat == MEDIUM || cat == LARGE)
    ensures Capacity(SetCapacity(cap, cat)) == cap && Category(LastByte(SetCapacity(cap, cat))) == cat
    ensures LastByte(SetCapacity(cap, cat)) > 23
  {
  }
}

/** basic_fbstring::find (folly/folly/FBString.h). */
module FbStringFind {
  import opened FbString

  const SIZE_T := 0x1_0000_0000_0000_0000
  const NPOS := SIZE_T - 1

  ghost predicate MatchAt(h: Text, n: Text, i: nat) { i + |n| <= |h| && forall j | 0 <= j < |n| :: h[i + j] == n[j] }

  ghost predicate NoMatch(h: Text, n: Text, lo: nat, hi: nat) { forall i: nat | lo <= i < hi :: !MatchAt(h, n, i) }

  /** The last character of the needle does not occur within `skip` of the end. */
  ghost predicate GoodSkip(n: Text, skip: nat) {
    1 <= skip <= |n| && forall p | |n| - skip <= p < |n| - 1 :: n[p] != n[|n| - 1]
  }

  /** After a mismatch with the last characters equal, no match starts before the skip. */
  lemma SkipIsSafe(h: Text, n: Text, i: nat, skip: nat)
    requires GoodSkip(n, skip) && i + |n| <= |h| && h[i + |n| - 1] == n[|n| - 1] && !MatchAt(h, n, i)
    ensures NoMatch(h, n, i, i + skip)
  {
    forall k: nat | i < k < i + skip ensures !MatchAt(h, n, k) {
      var p := |n| - 1 - (k - i);
      assert h[k + p] != n[p];
    }
  }

  method SkipOf(n: Text) returns (skip: nat)
    requires |n| >= 1
    ensures GoodSkip(n, skip)
  {
    skip := 1;
    while skip <= |n| - 1 && n[|n| - 1 - skip] != n[|n| - 1]
      invariant GoodSkip(n, skip)
    {
      skip := skip + 1;
    }
  }

  /** The first occurrence at or after pos, npos if there is none, for every pos and needle. */
  method Find(h: Text, needle: Text, pos: nat) returns (r: nat)
    requires |h| < NPOS && |needle| < SIZE_T && pos < SIZE_T
    ensures r != NPOS ==> pos <= r && MatchAt(h, needle, r) && NoMatch(h, needle, pos, r)
    ensures r == NPOS ==> forall i: nat | pos <= i :: !MatchAt(h, needle, i)
  {
    var size, nsize := |h|, |needle|;
    var sum := (nsize + pos) % SIZE_T;
    if sum > size || sum < pos { return NPOS; }
    if nsize == 0 { return pos; }
    var last := nsize - 1;
    var lastNeedle := needle[last];
    var skip := 0;
    var i, iEnd := pos, size - last;
    while i < iEnd
      invariant pos <= i && NoMatch(h, needle, pos, i) && (skip == 0 || GoodSkip(needle, skip))
    {
      while h[i + last] != lastNeedle
        invariant pos <= i < iEnd && NoMatch(h, needle, pos, i)
        decreases iEnd - i
      {
        i := i + 1;
        if i == iEnd { return NPOS; }
      }
      var j := 0;
      while h[i + j] == needle[j]
        invariant 0 <= j < nsize && forall k | 0 <= k < j :: h[i + k] == needle[k]
        decreases nsize - j
      {
        j := j + 1;
        if j == nsize { return i; }
      }
      if skip == 0 { skip := SkipOf(needle); }
      SkipIsSafe(h, needle, i, skip);
      i := i + skip;
    }
    return NPOS;
  }
}
