/** The session key builder: `getCacheSetID` joins its parts with ":" (Go's
    `strings.Join`). `Split` is its inverse on parts that do not contain the
    delimiter, which is what makes keys built from delimiter-free parts
    collision-free. */
module Keys {

  const Delimiter: char := ':'

  /** `strings.Join(parts, ":")`: the key starts with the first part, which
      is followed by the delimiter when more parts come. */
  function GetCacheSetId(parts: seq<string>): (key: string)
    ensures |parts| > 0 ==> parts[0] <= key
    ensures |parts| > 1 ==> |key| > |parts[0]| && key[|parts[0]|] == Delimiter
  {
    if |parts| == 0 then ""
    else if |parts| == 1 then parts[0]
    else parts[0] + [Delimiter] + GetCacheSetId(parts[1..])
  }

  /** `strings.Split(key, ":")`: the pieces between delimiters, in order. */
  function Split(key: string): (parts: seq<string>)
    ensures |parts| > 0
    decreases |key|
  {
    if |key| == 0 then [""]
    else
      var rest := Split(key[1..]);
      if key[0] == Delimiter then [""] + rest
      else [[key[0]] + rest[0]] + rest[1..]
  }

  predicate NoDelimiter(parts: seq<string>)
  {
    forall i :: 0 <= i < |parts| ==> Delimiter !in parts[i]
  }

  /** A delimiter-free prefix sticks to the first piece. */
  lemma {:induction false} SplitPrefix(w: string, t: string)
    requires Delimiter !in w
    ensures Split(w + t) == [w + Split(t)[0]] + Split(t)[1..]
  {
    if |w| == 0 {
      assert w + t == t;
      assert w + Split(t)[0] == Split(t)[0];
      assert Split(t) == [Split(t)[0]] + Split(t)[1..];
    } else {
      SplitPrefix(w[1..], t);
      assert (w + t)[1..] == w[1..] + t;
      assert [w[0]] + (w[1..] + Split(t)[0]) == w + Split(t)[0];
    }
  }

  /** Splitting a joined key gives back its parts. */
  lemma {:induction false} SplitJoin(parts: seq<string>)
    requires |parts| > 0 && NoDelimiter(parts)
    ensures Split(GetCacheSetId(parts)) == parts
  {
    if |parts| == 1 {
      SplitPrefix(parts[0], "");
      assert parts[0] + "" == parts[0];
    } else {
      var w, t := parts[0], GetCacheSetId(parts[1..]);
      assert NoDelimiter(parts[1..]) by {
        forall i | 0 <= i < |parts[1..]| ensures Delimiter !in parts[1..][i] {
          assert parts[1..][i] == parts[i + 1];
        }
      }
      SplitJoin(parts[1..]);
      assert ([Delimiter] + t)[1..] == t;
      assert Split([Delimiter] + t) == [""] + parts[1..];
      SplitPrefix(w, [Delimiter] + t);
      assert w + [Delimiter] + t == w + ([Delimiter] + t);
      assert w + "" == w;
      assert [w] + parts[1..] == parts;
    }
  }

  /** Joining the pieces of a key gives back the key. */
  lemma {:induction false} JoinSplit(key: string)
    ensures GetCacheSetId(Split(key)) == key
    decreases |key|
  {
    if |key| > 0 {
      var rest := Split(key[1..]);
      JoinSplit(key[1..]);
      if key[0] == Delimiter {
        assert ([""] + rest)[1..] == rest;
        assert key == [key[0]] + key[1..];
      } else if |rest| == 1 {
        assert key == [key[0]] + key[1..];
      } else {
        var first := [key[0]] + rest[0];
        assert ([first] + rest[1..])[1..] == rest[1..];
        assert key == [key[0]] + key[1..];
      }
    }
  }

  /** Keys built from non-empty lists of delimiter-free parts collide only
      when the lists are equal. */
  lemma GetCacheSetIdInjective(a: seq<string>, b: seq<string>)
    requires |a| > 0 && NoDelimiter(a)
    requires |b| > 0 && NoDelimiter(b)
    requires GetCacheSetId(a) == GetCacheSetId(b)
    ensures a == b
  {
    SplitJoin(a);
    SplitJoin(b);
  }
}
