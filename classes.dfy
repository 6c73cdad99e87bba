/** Stat curves, character classes and the registry that groups them by category. */
module Classes {
  import opened Wrappers

  /** A stat's value at level 1 and the amount it grows by on every level-up. */
  datatype Stat = Stat(base: int, increase: int)
  {
    /** The "canonical" value of the stat at `level`. */
    function At(level: int): int
    {
      base + (level - 1) * increase
    }

    /** The value extrapolated one level below level 1; new characters grow from it. */
    function LevelZero(): int
    {
      base - increase
    }
  }

  /** Damage-over-time conditions a character can suffer from. */
  datatype StatusEffect = Burn | Poison

  /** Who a class is for: the player, or an enemy of some rarity. */
  datatype Category = Player | Common | Rare | Legendary

  /** A character archetype. A class with an `mp` curve is a magic class. The optional
      `inflicts` pair is a status effect and the chance of inflicting it. */
  datatype Class = Class(
    name: string,
    hp: Stat,
    mp: Option<Stat>,
    strength: Stat,
    speed: Stat,
    category: Category,
    inflicts: Option<(StatusEffect, nat)>)
  {
    predicate IsMagic()
    {
      mp.Some?
    }
  }

  /** The class catalogue: the classes of each category, in load order. */
  type Registry = map<Category, seq<Class>>

  /** Every category has at least one class, as the game requires of its catalogue. */
  predicate Complete(reg: Registry)
  {
    && Player in reg && |reg[Player]| > 0
    && Common in reg && |reg[Common]| > 0
    && Rare in reg && |reg[Rare]| > 0
    && Legendary in reg && |reg[Legendary]| > 0
  }

  /** Every class is filed under its own category. */
  ghost predicate Grouped(reg: Registry)
  {
    forall k, i :: k in reg && 0 <= i < |reg[k]| ==> reg[k][i].category == k
  }

  // ---------------------------------------------------------------------------
  // Stat curve

  /** The curve is linear: the base at level 1, one increase per further level, and the
      level-0 seed plus `level` increases at any level. */
  lemma StatCurve(s: Stat, level: int)
    ensures s.At(1) == s.base
    ensures s.At(level + 1) - s.At(level) == s.increase
    ensures s.At(level) == s.LevelZero() + level * s.increase
  {
  }

  // ---------------------------------------------------------------------------
  // Lookups

  /** The classes of `category`. */
  function Of(reg: Registry, category: Category): (r: seq<Class>)
    requires category in reg
    ensures Grouped(reg) ==> forall c :: c in r ==> c.category == category
  {
    reg[category]
  }

  /** The default player class: the first one of the Player category. */
  function PlayerFirst(reg: Registry): (r: Class)
    requires Player in reg && |reg[Player]| > 0
    ensures PlayerByName(reg, r.name) == Some(r)
    ensures Grouped(reg) ==> r.category == Player
  {
    Of(reg, Player)[0]
  }

  /** The classes of `s` named `name`, in order. */
  function Named(s: seq<Class>, name: string): (r: seq<Class>)
    ensures forall c :: c in r ==> c in s && c.name == name
    ensures |r| == 0 <==> forall i :: 0 <= i < |s| ==> s[i].name != name
  {
    if s == [] then []
    else if s[0].name == name then [s[0]] + Named(s[1..], name)
    else Named(s[1..], name)
  }

  /** The head of `Named(s, name)` is the first class of `s` with that name. */
  lemma {:induction false} NamedHead(s: seq<Class>, name: string)
    requires |Named(s, name)| > 0
    ensures exists i :: FirstNamed(s, name, i) && s[i] == Named(s, name)[0]
  {
    if s[0].name == name {
      assert FirstNamed(s, name, 0);
    } else {
      NamedHead(s[1..], name);
      var i :| FirstNamed(s[1..], name, i) && s[1..][i] == Named(s[1..], name)[0];
      assert FirstNamed(s, name, i + 1);
    }
  }

  /** `i` is the first position of `s` holding a class named `name`. */
  ghost predicate FirstNamed(s: seq<Class>, name: string, i: int)
  {
    0 <= i < |s| && s[i].name == name && forall j :: 0 <= j < i ==> s[j].name != name
  }

  /** The first player class named `name`, if there is one. */
  function PlayerByName(reg: Registry, name: string): (r: Option<Class>)
    requires Player in reg
    ensures r.None? <==> forall i :: 0 <= i < |reg[Player]| ==> reg[Player][i].name != name
    ensures r.Some? ==> exists i :: FirstNamed(reg[Player], name, i) && reg[Player][i] == r.value
  {
    var matches := Named(Of(reg, Player), name);
    if |matches| == 0 then None
    else
      NamedHead(reg[Player], name);
      Some(matches[0])
  }

  /** The class at index `pick` of `category`: the uniform choice the game makes, with
      the random index supplied by the caller. */
  function Random(reg: Registry, category: Category, pick: nat): (r: Class)
    requires category in reg && pick < |reg[category]|
    ensures r in reg[category]
    ensures Grouped(reg) ==> r.category == category
  {
    Of(reg, category)[pick]
  }

  /** The names of the classes in `s`. */
  function NamesOf(s: seq<Class>): (r: set<string>)
    ensures forall n :: n in r <==> exists i :: 0 <= i < |s| && s[i].name == n
    ensures |r| <= |s|
  {
    if s == [] then {}
    else
      var rest := NamesOf(s[1..]);
      assert forall i :: 0 < i < |s| ==> s[i] == s[1..][i - 1];
      {s[0].name} + rest
  }

  /** The names of the classes of `category`. */
  function Names(reg: Registry, category: Category): (r: set<string>)
    requires category in reg
    ensures forall n :: n in r <==> exists c :: c in reg[category] && c.name == n
  {
    NamesOf(Of(reg, category))
  }

  // ---------------------------------------------------------------------------
  // Grouping a parsed class list into a registry

  /** The classes of `s` whose category is `k`, in input order. */
  function OfCategory(s: seq<Class>, k: Category): (r: seq<Class>)
    ensures |r| <= |s|
  {
    if s == [] then []
    else
      var last := s[|s| - 1];
      OfCategory(s[..|s| - 1], k) + (if last.category == k then [last] else [])
  }

  /** Appending a class extends the group of its own category only. */
  lemma OfCategorySnoc(s: seq<Class>, c: Class, k: Category)
    ensures OfCategory(s + [c], k) == OfCategory(s, k) + (if c.category == k then [c] else [])
  {
    assert (s + [c])[..|s|] == s;
  }

  /** Builds the registry from an already-parsed class list: each class is appended to
      the group of its category, created on first use. */
  method Group(classes: seq<Class>) returns (groups: Registry)
    ensures forall k :: k in groups <==> Occurs(classes, k)
    ensures forall k :: k in groups ==> groups[k] == OfCategory(classes, k)
  {
    groups := map[];
    for n := 0 to |classes|
      invariant forall k :: k in groups <==> Occurs(classes[..n], k)
      invariant forall k :: k in groups ==> groups[k] == OfCategory(classes[..n], k)
    {
      var c := classes[n];
      assert classes[..n + 1] == classes[..n] + [c];
      if c.category !in groups {
        OfCategoryEmpty(classes[..n], c.category);
      }
      forall k
        ensures OfCategory(classes[..n + 1], k)
                == OfCategory(classes[..n], k) + (if c.category == k then [c] else [])
      {
        OfCategorySnoc(classes[..n], c, k);
      }
      forall k
        ensures Occurs(classes[..n + 1], k) <==> Occurs(classes[..n], k) || c.category == k
      {
        OccursSnoc(classes[..n], c, k);
      }
      var entry := if c.category in groups then groups[c.category] else [];
      groups := groups[c.category := entry + [c]];
    }
    assert classes[..|classes|] == classes;
  }

  /** A category absent from the input has an empty group. */
  lemma {:induction false} OfCategoryEmpty(s: seq<Class>, k: Category)
    requires !Occurs(s, k)
    ensures OfCategory(s, k) == []
  {
    if s != [] {
      OfCategoryEmpty(s[..|s| - 1], k);
    }
  }

  /** Grouping loses and duplicates nothing: the group sizes add up to the input size. */
  lemma {:induction false} GroupSizes(s: seq<Class>)
    ensures |OfCategory(s, Player)| + |OfCategory(s, Common)| + |OfCategory(s, Rare)|
            + |OfCategory(s, Legendary)| == |s|
  {
    if s != [] {
      GroupSizes(s[..|s| - 1]);
    }
  }

  /** The registry `Group` builds files every class under its own category, and it is
      complete exactly when every category occurs in the input. */
  lemma GroupIsGrouped(classes: seq<Class>, groups: Registry)
    requires forall k :: k in groups <==> Occurs(classes, k)
    requires forall k :: k in groups ==> groups[k] == OfCategory(classes, k)
    ensures Grouped(groups)
    ensures forall k :: k in groups ==> |groups[k]| > 0
    ensures Complete(groups) <==> forall k: Category :: Occurs(classes, k)
  {
    forall k | k in groups
      ensures |groups[k]| > 0
    {
      var i :| 0 <= i < |classes| && classes[i].category == k;
      OfCategoryHas(classes, k, i);
    }
    forall k, i | k in groups && 0 <= i < |groups[k]|
      ensures groups[k][i].category == k
    {
      OfCategoryMembers(classes, k, groups[k][i]);
    }
  }

  /** Some class of `s` has category `k`. */
  ghost predicate Occurs(s: seq<Class>, k: Category)
  {
    exists i :: 0 <= i < |s| && s[i].category == k
  }

  /** Appending a class adds its category to those that occur, and no other. */
  lemma OccursSnoc(s: seq<Class>, c: Class, k: Category)
    ensures Occurs(s + [c], k) <==> Occurs(s, k) || c.category == k
  {
    var t := s + [c];
    if Occurs(t, k) && c.category != k {
      var i :| 0 <= i < |t| && t[i].category == k;
      assert s[i].category == k;
    }
    if Occurs(s, k) {
      var i :| 0 <= i < |s| && s[i].category == k;
      assert t[i].category == k;
    }
    if c.category == k {
      assert t[|s|].category == k;
    }
  }

  /** The group of `k` holds only classes of `s` of category `k`. */
  lemma {:induction false} OfCategoryMembers(s: seq<Class>, k: Category, c: Class)
    requires c in OfCategory(s, k)
    ensures c in s && c.category == k
  {
    if c !in OfCategory(s[..|s| - 1], k) {
      assert c == s[|s| - 1];
    } else {
      OfCategoryMembers(s[..|s| - 1], k, c);
    }
  }

  /** An input class of category `k` makes the group of `k` non-empty. */
  lemma {:induction false} OfCategoryHas(s: seq<Class>, k: Category, i: int)
    requires 0 <= i < |s| && s[i].category == k
    ensures s[i] in OfCategory(s, k)
  {
    if i < |s| - 1 {
      OfCategoryHas(s[..|s| - 1], k, i);
    }
  }
}
