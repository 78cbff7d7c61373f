/** What Canvas.Metadata (canvas.go:185-207) collects: for each property name the engine
    lists, in order, the name and the value looked up under it, both trimmed of spaces,
    stored in a map, so that a later name that trims to the same key overwrites an
    earlier one. */
module Metadata {
  import opened GoStrings
  import opened Magick

  /** The map after the first `n` rounds of the loop over `names`. */
  function Collect(props: seq<Property>, names: seq<string>, n: nat): map<string, string>
    requires n <= |names|
  {
    if n == 0 then map[]
    else Collect(props, names, n - 1)[Trim(names[n - 1]) := Trim(GetProp(props, names[n - 1]))]
  }

  /** The state after the call: a wand without an image records ContainsNoImages. */
  function AfterMetadata(s: WandState): WandState
  {
    if s.image.None? then s.(exception := NoImagesReason) else s
  }

  function MetadataOf(s: WandState): map<string, string>
  {
    if s.image.None? then map[]
    else
      var names := Names(s.image.value.props);
      Collect(s.image.value.props, names, |names|)
  }

  /** Every key and every value comes out trimmed. */
  lemma {:induction false} CollectTrimmed(props: seq<Property>, names: seq<string>, n: nat)
    requires n <= |names|
    ensures forall k :: k in Collect(props, names, n) ==> Trimmed(k) && Trimmed(Collect(props, names, n)[k])
  {
    if n > 0 {
      CollectTrimmed(props, names, n - 1);
      TrimShape(names[n - 1]);
      TrimShape(GetProp(props, names[n - 1]));
    }
  }

  /** The keys are exactly the trimmed names. */
  lemma {:induction false} CollectKeys(props: seq<Property>, names: seq<string>, n: nat)
    requires n <= |names|
    ensures Collect(props, names, n).Keys == set i | 0 <= i < n :: Trim(names[i])
  {
    if n > 0 {
      CollectKeys(props, names, n - 1);
      var all := set i | 0 <= i < n :: Trim(names[i]);
      var front := set i | 0 <= i < n - 1 :: Trim(names[i]);
      assert all == front + {Trim(names[n - 1])};
    }
  }

  /** Last key wins: the value under a key comes from the last name that trims to it. */
  lemma {:induction false} CollectLastWins(props: seq<Property>, names: seq<string>, n: nat, j: nat)
    requires j < n <= |names|
    requires forall i :: j < i < n ==> Trim(names[i]) != Trim(names[j])
    ensures Trim(names[j]) in Collect(props, names, n)
    ensures Collect(props, names, n)[Trim(names[j])] == Trim(GetProp(props, names[j]))
  {
    if j < n - 1 {
      CollectLastWins(props, names, n - 1, j);
    }
  }

  /** Some index at or after `i0` is the last name that trims to `key`. */
  lemma {:induction false} LastMatch(names: seq<string>, key: string, i0: nat) returns (j: nat)
    requires i0 < |names| && Trim(names[i0]) == key
    ensures i0 <= j < |names| && Trim(names[j]) == key
    ensures forall i :: j < i < |names| ==> Trim(names[i]) != key
    decreases |names| - i0
  {
    if exists i :: i0 < i < |names| && Trim(names[i]) == key {
      var i1 :| i0 < i1 < |names| && Trim(names[i1]) == key;
      j := LastMatch(names, key, i1);
    } else {
      j := i0;
    }
  }

  /** When the only raw name that trims to a trimmed key is the key itself, the map holds
      the trimmed value stored under it. */
  lemma MetadataLookup(props: seq<Property>, key: string)
    requires Trimmed(key)
    requires exists i :: 0 <= i < |props| && props[i].key == key
    requires forall i :: 0 <= i < |props| && Trim(props[i].key) == key ==> props[i].key == key
    ensures var m := Collect(props, Names(props), |props|);
            key in m && m[key] == Trim(GetProp(props, key))
  {
    var names := Names(props);
    var i0 :| 0 <= i0 < |props| && props[i0].key == key;
    TrimmedIsFixed(key);
    var j := LastMatch(names, key, i0);
    assert props[j].key == key;
    CollectLastWins(props, names, |props|, j);
  }

  /** Two raw keys that differ only by surrounding spaces collapse to one entry holding
      the value of the name listed later. The engine lists names in key order, where
      " a " sorts before "a", so the unpadded name's value wins. */
  lemma TrimCollisionExample()
    ensures var props := [Property(" a ", " 2 "), Property("a", "1")];
            Collect(props, Names(props), 2) == map["a" := "1"]
  {
    var props := [Property(" a ", " 2 "), Property("a", "1")];
    assert Names(props) == [" a ", "a"];
    assert Trim(" a ") == "a" by {
      assert TrimLeft(" a ") == "a ";
      assert TrimRight("a ") == "a";
    }
    assert Trim(" 2 ") == "2" by {
      assert TrimLeft(" 2 ") == "2 ";
      assert TrimRight("2 ") == "2";
    }
    assert Trim("1") == "1" by {
      assert TrimLeft("1") == "1";
      assert TrimRight("1") == "1";
    }
    assert GetProp(props, "a") == "1";
    assert Collect(props, Names(props), 1) == map["a" := "2"];
  }
}
