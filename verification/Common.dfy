/** Optional values and facts about concatenation that several modules use. */
module Common {

  datatype Option<+T> = None | Some(value: T)

  function Concat<T>(parts: seq<seq<T>>): seq<T> {
    if parts == [] then [] else parts[0] + Concat(parts[1..])
  }

  lemma {:induction false} ConcatAppend<T>(parts: seq<seq<T>>, last: seq<T>)
    ensures Concat(parts + [last]) == Concat(parts) + last
  {
    if parts == [] {
      assert [last][1..] == [] && last + [] == last && [] + last == last;
      assert parts + [last] == [last];
    } else {
      assert (parts + [last])[1..] == parts[1..] + [last];
      ConcatAppend(parts[1..], last);
      Associate(parts[0], Concat(parts[1..]), last);
    }
  }

  function Max(a: int, b: int): int { if a < b then b else a }
  function Min(a: int, b: int): int { if a < b then a else b }

  /** Concatenation element by element, for parts that are often empty. */
  function Glue<T>(a: seq<T>, b: seq<T>): (r: seq<T>)
    decreases |b|
  {
    if |b| == 0 then a else Glue(a, b[..|b| - 1]) + [b[|b| - 1]]
  }

  lemma {:induction false} GlueIs<T>(a: seq<T>, b: seq<T>)
    ensures Glue(a, b) == a + b
    decreases |b|
  {
    if |b| > 0 {
      GlueIs(a, b[..|b| - 1]);
      assert b == b[..|b| - 1] + [b[|b| - 1]];
    }
  }

  lemma Associate<T>(a: seq<T>, b: seq<T>, c: seq<T>)
    ensures a + (b + c) == a + b + c
  {
  }

  /** Three parts in the middle. */
  lemma Bracket<T>(front: seq<T>, a: seq<T>, b: seq<T>, c: seq<T>, back: seq<T>)
    ensures front + a + b + c + back == front + (a + b + c) + back
  {
    Associate(front, a, b);
    Associate(front, a + b, c);
  }

  lemma Cancel<T>(a: seq<T>, b: seq<T>, c: seq<T>)
    ensures a + b == a + c <==> b == c
  {
    if a + b == a + c {
      assert b == (a + b)[|a|..] && c == (a + c)[|a|..];
    }
  }
}
