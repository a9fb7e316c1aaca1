/** The metaclass `Meta`: before the class is built, its attribute dictionary
    is copied into a fresh one in which every name that does not start with
    "__" is upper-cased. Names are ASCII strings; the class namespace is the
    insertion-ordered sequence of its (name, value) entries. */
module MetaclassExample {

  datatype Option<T> = None | Some(value: T)

  /** ASCII upper-casing of one character. */
  function UpperChar(c: char): char
  {
    if 'a' <= c <= 'z' then (c as int - 32) as char else c
  }

  /** `str.upper`, restricted to ASCII. */
  function Upper(s: string): string
  {
    seq(|s|, i requires 0 <= i < |s| => UpperChar(s[i]))
  }

  /** `key.startswith("__")` */
  predicate IsDunder(key: string)
  {
    |key| >= 2 && key[0] == '_' && key[1] == '_'
  }

  /** The name under which an attribute ends up in the new class. */
  function RenameKey(key: string): string
  {
    if IsDunder(key) then key else Upper(key)
  }

  /** The entries of a dict, in iteration order: no key occurs twice. */
  predicate DistinctKeys<V>(attrs: seq<(string, V)>)
  {
    forall i, j :: 0 <= i < j < |attrs| ==> attrs[i].0 != attrs[j].0
  }

  /** The dict `upper` after inserting every entry of `attrs` in order:
      a later entry overwrites an earlier one under the same new name. */
  function Renamed<V>(attrs: seq<(string, V)>): map<string, V>
  {
    if attrs == [] then map[]
    else
      var last := attrs[|attrs| - 1];
      Renamed(attrs[..|attrs| - 1])[RenameKey(last.0) := last.1]
  }

  /** `Meta.__new__`'s loop over `attrs.items()`, building `upper` step by step. */
  method RenameAttributes<V>(attrs: seq<(string, V)>) returns (upper: map<string, V>)
    ensures upper == Renamed(attrs)
  {
    upper := map[];
    for i := 0 to |attrs|
      invariant upper == Renamed(attrs[..i])
    {
      var (key, value) := attrs[i];
      assert attrs[..i + 1][..i] == attrs[..i];
      if IsDunder(key) {
        upper := upper[key := value];
      } else {
        upper := upper[Upper(key) := value];
      }
    }
    assert attrs[..|attrs|] == attrs;
  }

  /** Upper-casing changes letters only, and never into or out of '_'. */
  lemma UpperPreservesDunder(key: string)
    ensures |Upper(key)| == |key|
    ensures IsDunder(Upper(key)) <==> IsDunder(key)
  {
    if |key| >= 2 {
      assert Upper(key)[0] == UpperChar(key[0]);
      assert Upper(key)[1] == UpperChar(key[1]);
    }
  }

  lemma UpperIdempotent(s: string)
    ensures Upper(Upper(s)) == Upper(s)
  {
    var u := Upper(s);
    assert forall i :: 0 <= i < |s| ==> Upper(u)[i] == UpperChar(UpperChar(s[i])) == u[i];
  }

  /** Renaming an already renamed name changes nothing. */
  lemma RenameKeyIdempotent(key: string)
    ensures RenameKey(RenameKey(key)) == RenameKey(key)
  {
    UpperPreservesDunder(key);
    UpperIdempotent(key);
  }

  /** Dunder names and upper-cased names never collide. */
  lemma RenameKeyKeepsKind(key: string)
    ensures IsDunder(RenameKey(key)) <==> IsDunder(key)
  {
    UpperPreservesDunder(key);
  }

  /** Every entry lands under its new name in the result, and every name of
      the result is the new name of some entry: nothing is invented. */
  lemma {:induction false} RenamedKeys<V>(attrs: seq<(string, V)>)
    ensures forall i :: 0 <= i < |attrs| ==> RenameKey(attrs[i].0) in Renamed(attrs)
    ensures forall k :: k in Renamed(attrs) ==> exists i :: 0 <= i < |attrs| && RenameKey(attrs[i].0) == k
  {
    if attrs != [] {
      var prefix := attrs[..|attrs| - 1];
      RenamedKeys(prefix);
      assert forall i :: 0 <= i < |prefix| ==> prefix[i] == attrs[i];
    }
  }

  /** An entry that no later entry collides with keeps its value under its new
      name; in particular a non-dunder `k` appears as `Upper(k)` with its value. */
  lemma {:induction false} RenamedLastWins<V>(attrs: seq<(string, V)>, i: nat)
    requires i < |attrs|
    requires forall j :: i < j < |attrs| ==> RenameKey(attrs[j].0) != RenameKey(attrs[i].0)
    ensures RenameKey(attrs[i].0) in Renamed(attrs)
    ensures Renamed(attrs)[RenameKey(attrs[i].0)] == attrs[i].1
  {
    if i < |attrs| - 1 {
      var prefix := attrs[..|attrs| - 1];
      RenamedLastWins(prefix, i);
    }
  }

  /** The value under a name of the result is that of the last entry renamed
      to it. */
  lemma {:induction false} RenamedValue<V>(attrs: seq<(string, V)>, k: string)
    requires k in Renamed(attrs)
    ensures exists i :: 0 <= i < |attrs| && RenameKey(attrs[i].0) == k && Renamed(attrs)[k] == attrs[i].1
                     && forall j :: i < j < |attrs| ==> RenameKey(attrs[j].0) != k
  {
    var last := |attrs| - 1;
    if RenameKey(attrs[last].0) != k {
      var prefix := attrs[..last];
      RenamedValue(prefix, k);
      var i :| 0 <= i < |prefix| && RenameKey(prefix[i].0) == k && Renamed(prefix)[k] == prefix[i].1
               && forall j :: i < j < |prefix| ==> RenameKey(prefix[j].0) != k;
      assert forall j :: i < j < |attrs| ==> RenameKey(attrs[j].0) != k by {
        forall j | i < j < |attrs| ensures RenameKey(attrs[j].0) != k {
          if j < last { assert prefix[j] == attrs[j]; }
        }
      }
    }
  }

  /** Every entry whose name starts with "__" is in the result, unchanged,
      with its value. */
  lemma DunderKept<V>(attrs: seq<(string, V)>, i: nat)
    requires DistinctKeys(attrs)
    requires i < |attrs| && IsDunder(attrs[i].0)
    ensures attrs[i].0 in Renamed(attrs) && Renamed(attrs)[attrs[i].0] == attrs[i].1
  {
    forall j | i < j < |attrs|
      ensures RenameKey(attrs[j].0) != RenameKey(attrs[i].0)
    {
      RenameKeyKeepsKind(attrs[j].0);
    }
    RenamedLastWins(attrs, i);
  }

  /** The new class never has more attributes than the class body. */
  lemma {:induction false} RenamedSize<V>(attrs: seq<(string, V)>)
    ensures |Renamed(attrs)| <= |attrs|
  {
    if attrs != [] {
      var prefix := attrs[..|attrs| - 1];
      var last := attrs[|attrs| - 1];
      RenamedSize(prefix);
      var m := Renamed(prefix);
      if RenameKey(last.0) in m {
        assert m[RenameKey(last.0) := last.1].Keys == m.Keys;
      } else {
        assert m[RenameKey(last.0) := last.1].Keys == m.Keys + {RenameKey(last.0)};
      }
    }
  }

  /** `items` lists the entries of the dict `m`, each once. */
  ghost predicate Lists<V>(items: seq<(string, V)>, m: map<string, V>)
  {
    && DistinctKeys(items)
    && (forall i :: 0 <= i < |items| ==> items[i].0 in m && m[items[i].0] == items[i].1)
    && (forall k :: k in m ==> exists i :: 0 <= i < |items| && items[i].0 == k)
  }

  /** Running the metaclass again on a class it produced, in any iteration
      order of its dict, gives the same dict back. */
  lemma RenamedIdempotent<V>(attrs: seq<(string, V)>, items: seq<(string, V)>)
    requires Lists(items, Renamed(attrs))
    ensures Renamed(items) == Renamed(attrs)
  {
    var m := Renamed(attrs);
    RenamedKeys(attrs);
    RenamedKeys(items);
    forall i | 0 <= i < |items|
      ensures RenameKey(items[i].0) == items[i].0
    {
      var j :| 0 <= j < |attrs| && RenameKey(attrs[j].0) == items[i].0;
      RenameKeyIdempotent(attrs[j].0);
    }
    forall k | k in m
      ensures k in Renamed(items) && Renamed(items)[k] == m[k]
    {
      var i :| 0 <= i < |items| && items[i].0 == k;
      RenamedLastWins(items, i);
    }
    forall k | k in Renamed(items)
      ensures k in m
    {
      var i :| 0 <= i < |items| && RenameKey(items[i].0) == k;
    }
  }

  /** Collisions resolve to the entry iterated last. */
  lemma CollisionLastWins()
    ensures Renamed([("a", 1), ("A", 2)]) == map["A" := 2]
    ensures Renamed([("A", 2), ("a", 1)]) == map["A" := 1]
  {
    assert Upper("a") == "A";
    assert Upper("A") == "A";
    assert [("a", 1), ("A", 2)][..1] == [("a", 1)];
    assert [("A", 2), ("a", 1)][..1] == [("A", 2)];
    assert [("a", 1)][..0] == [];
    assert [("A", 2)][..0] == [];
  }

  /** What the body of class `Adding` binds; the docstring's text is not kept. */
  datatype Attr = Text(s: string) | DocString | Int(n: int) | Annotations(names: seq<string>) | SumMethod

  /** A representative namespace of `class Adding(metaclass=Meta)`: the user
      names in definition order after the dunder entries. The order among the
      dunder entries is immaterial, since each keeps its own distinct name. */
  function AddingAttrs(): seq<(string, Attr)>
  {
    [ ("__module__", Text("__main__")),
      ("__qualname__", Text("Adding")),
      ("__doc__", DocString),
      ("__annotations__", Annotations(["a", "b"])),
      ("a", Int(5)),
      ("b", Int(6)),
      ("sum", SumMethod) ]
  }

  /** Python's `x + y` on two attribute values: integers add and strings
      concatenate; `None` stands for the TypeError of any other pair. The
      text of the docstring is not kept, so it takes part in no sum. */
  function Plus(x: Attr, y: Attr): (r: Option<Attr>)
    ensures x.Int? && y.Int? ==> r == Some(Int(x.n + y.n))
    ensures x.Text? && y.Text? ==> r == Some(Text(x.s + y.s))
    ensures r.Some? ==> (x.Int? && y.Int?) || (x.Text? && y.Text?)
  {
    match (x, y)
    case (Int(m), Int(n)) => Some(Int(m + n))
    case (Text(s), Text(t)) => Some(Text(s + t))
    case _ => None
  }

  /** `instance.<name>()` for a name of the class's own dict, where the bound
      method is `sum`: returns `self.A + self.B`. Names are looked up in `cls`
      only, not in the base class `object`. `None` stands for the
      AttributeError Python raises when a name is missing from both (or for a
      name that does not hold `sum`), and for the TypeError of `+` on operands
      it cannot add. */
  function CallSum(cls: map<string, Attr>, name: string): (r: Option<Attr>)
    ensures r.Some? ==> name in cls && cls[name] == SumMethod && "A" in cls && "B" in cls
    ensures name in cls && cls[name] == SumMethod && "A" in cls && "B" in cls
            ==> r == Plus(cls["A"], cls["B"])
    ensures name in cls && cls[name] == SumMethod && "A" in cls && "B" in cls
            && cls["A"].Int? && cls["B"].Int?
            ==> r == Some(Int(cls["A"].n + cls["B"].n))
    ensures name in cls && cls[name] == SumMethod && "A" in cls && "B" in cls
            && cls["A"].Text? && cls["B"].Text?
            ==> r == Some(Text(cls["A"].s + cls["B"].s))
  {
    if name in cls && cls[name] == SumMethod && "A" in cls && "B" in cls
    then Plus(cls["A"], cls["B"])
    else None
  }

  /** With string attributes, `SUM()` concatenates them, as Python's `+` does. */
  lemma StringSumConcatenates()
    ensures CallSum(map["SUM" := SumMethod, "A" := Text("x"), "B" := Text("y")], "SUM") == Some(Text("xy"))
  {
    var cls := map["SUM" := SumMethod, "A" := Text("x"), "B" := Text("y")];
    assert cls["A"] == Text("x") && cls["B"] == Text("y");
    assert "x" + "y" == "xy";
  }

  /** `Adding().SUM()` returns 11. */
  method RunAdding() returns (result: Option<Attr>)
    ensures result == Some(Int(11))
  {
    var cls := RenameAttributes(AddingAttrs());
    AddingRenamed();
    result := CallSum(cls, "SUM");
  }

  /** The new name of each entry of `Adding`'s namespace. */
  lemma AddingNewNames()
    ensures forall i :: 0 <= i < 4 ==> RenameKey(AddingAttrs()[i].0) == AddingAttrs()[i].0
    ensures RenameKey(AddingAttrs()[4].0) == "A"
    ensures RenameKey(AddingAttrs()[5].0) == "B"
    ensures RenameKey(AddingAttrs()[6].0) == "SUM"
  {
    assert Upper("a") == "A";
    assert Upper("b") == "B";
    assert Upper("sum") == "SUM";
  }

  /** The class built for `Adding`: `a`, `b`, `sum` became `A`, `B`, `SUM`
      with their values. */
  lemma AddingRenamed()
    ensures "A" in Renamed(AddingAttrs()) && Renamed(AddingAttrs())["A"] == Int(5)
    ensures "B" in Renamed(AddingAttrs()) && Renamed(AddingAttrs())["B"] == Int(6)
    ensures "SUM" in Renamed(AddingAttrs()) && Renamed(AddingAttrs())["SUM"] == SumMethod
  {
    AddingNewNames();
    RenamedLastWins(AddingAttrs(), 4);
    RenamedLastWins(AddingAttrs(), 5);
    RenamedLastWins(AddingAttrs(), 6);
  }

  /** A name that no entry is renamed to is not in the result. */
  lemma NotRenamedTo<V>(attrs: seq<(string, V)>, k: string)
    requires forall i :: 0 <= i < |attrs| ==> RenameKey(attrs[i].0) != k
    ensures k !in Renamed(attrs)
  {
    RenamedKeys(attrs);
  }

  /** The lower-case names of `Adding` are gone from the built class, and its
      dunder names are kept with their values. */
  lemma AddingDropsLowerCase()
    ensures "a" !in Renamed(AddingAttrs()) && "b" !in Renamed(AddingAttrs()) && "sum" !in Renamed(AddingAttrs())
    ensures "__module__" in Renamed(AddingAttrs()) && Renamed(AddingAttrs())["__module__"] == Text("__main__")
  {
    var attrs := AddingAttrs();
    AddingNewNames();
    forall i | 0 <= i < 4
      ensures IsDunder(RenameKey(attrs[i].0))
    {
    }
    NotRenamedTo(attrs, "a");
    NotRenamedTo(attrs, "b");
    NotRenamedTo(attrs, "sum");
    RenamedLastWins(attrs, 0);
  }
}
