/**
 * Query strings as the URL builder writes them: `key=value` fields joined
 * by `&`, with no escaping of either part. Next to the writer sits a
 * reference reader (split at `&`, then at the first `=`) against which the
 * builder's output is checked.
 */
module Query {
  import opened Wrappers

  /** One query parameter: key and value, both written verbatim. */
  type Param = (string, string)

  /** Index of the first `c` in `s`, or `|s|` when there is none. */
  function IndexOf(s: string, c: char): (i: nat)
    ensures i <= |s|
    ensures i < |s| ==> s[i] == c
    ensures forall j :: 0 <= j < i ==> s[j] != c
  {
    if |s| == 0 then 0
    else if s[0] == c then 0
    else 1 + IndexOf(s[1..], c)
  }

  /** `parts` glued back together with `c` between neighbours. */
  function Join(parts: seq<string>, c: char): string
    requires |parts| >= 1
  {
    if |parts| == 1 then parts[0] else parts[0] + [c] + Join(parts[1..], c)
  }

  /** Cuts `s` at every `c`; the pieces contain no `c` and join back to `s`. */
  function Split(s: string, c: char): (parts: seq<string>)
    ensures |parts| >= 1
    ensures forall k :: 0 <= k < |parts| ==> c !in parts[k]
    ensures Join(parts, c) == s
    decreases |s|
  {
    var i := IndexOf(s, c);
    if i == |s| then [s]
    else
      assert s == s[..i] + [c] + s[i + 1..];
      [s[..i]] + Split(s[i + 1..], c)
  }

  /** Splitting undoes joining whenever no piece contains the separator. */
  lemma {:induction false} SplitJoin(parts: seq<string>, c: char)
    requires |parts| >= 1
    requires forall k :: 0 <= k < |parts| ==> c !in parts[k]
    ensures Split(Join(parts, c), c) == parts
    decreases |parts|
  {
    if |parts| == 1 {
      assert IndexOf(parts[0], c) == |parts[0]|;
    } else {
      var head := parts[0];
      var rest := Join(parts[1..], c);
      var s := head + [c] + rest;
      assert IndexOf(s, c) == |head| by {
        assert s[|head|] == c;
        assert forall j :: 0 <= j < |head| ==> s[j] == head[j];
      }
      assert s[..|head|] == head;
      assert s[|head| + 1..] == rest;
      SplitJoin(parts[1..], c);
    }
  }

  /** `key=value`. */
  function Field(p: Param): string {
    p.0 + "=" + p.1
  }

  /** `&key=value`: one caller argument as the builder appends it. */
  function Entry(p: Param): string {
    "&" + Field(p)
  }

  /** The entries of `ps`, in order. */
  function Tail(ps: seq<Param>): string {
    if |ps| == 0 then "" else Entry(ps[0]) + Tail(ps[1..])
  }

  /** A full query string: the first field bare, every later one behind `&`. */
  function Render(ps: seq<Param>): string
    requires |ps| >= 1
  {
    Field(ps[0]) + Tail(ps[1..])
  }

  lemma {:induction false} TailAppend(a: seq<Param>, b: seq<Param>)
    ensures Tail(a + b) == Tail(a) + Tail(b)
    decreases |a|
  {
    if |a| > 0 {
      assert (a + b)[1..] == a[1..] + b;
      TailAppend(a[1..], b);
    } else {
      assert a + b == b;
    }
  }

  /** The entries around position `i`: those before it, its own, those after it. */
  lemma {:induction false} TailAround(ps: seq<Param>, i: nat)
    requires i < |ps|
    ensures Tail(ps) == Tail(ps[..i]) + (Entry(ps[i]) + Tail(ps[i + 1..]))
  {
    assert ps == ps[..i] + ([ps[i]] + ps[i + 1..]);
    TailAppend(ps[..i], [ps[i]] + ps[i + 1..]);
    assert ([ps[i]] + ps[i + 1..])[1..] == ps[i + 1..];
  }

  /** An entry glued onto a value renders like a parameter of its own. */
  lemma {:induction false} EntryAbsorbs(p: Param, q: Param)
    ensures Tail([(p.0, p.1 + Entry(q))]) == Tail([p, q])
  {
  }

  lemma {:induction false} TailOfThree(a: Param, b: Param, c: Param)
    ensures Tail([a, b, c]) == Entry(a) + (Entry(b) + Entry(c))
  {
    assert [a, b, c][1..] == [b, c];
    assert [b, c][1..] == [c];
    assert Tail([c]) == Entry(c) + Tail([c][1..]);
    assert [c][1..] == [];
    assert Tail([c]) == Entry(c);
  }

  /** Rendering a longer list appends the entries of the extra parameters. */
  lemma {:induction false} RenderAppend(ps: seq<Param>, qs: seq<Param>)
    requires |ps| >= 1
    ensures Render(ps + qs) == Render(ps) + Tail(qs)
  {
    assert (ps + qs)[0] == ps[0];
    assert (ps + qs)[1..] == ps[1..] + qs;
    TailAppend(ps[1..], qs);
  }

  /**
   * A parameter survives the round trip when neither part holds `&` or `#`
   * (which would start the fragment) and the key holds no `=`.
   */
  predicate Plain(p: Param) {
    && '&' !in p.0 && '=' !in p.0 && '#' !in p.0
    && '&' !in p.1 && '#' !in p.1
  }

  predicate AllPlain(ps: seq<Param>) {
    forall k :: 0 <= k < |ps| ==> Plain(ps[k])
  }

  lemma {:induction false} AllPlainAppend(a: seq<Param>, b: seq<Param>)
    requires AllPlain(a) && AllPlain(b)
    ensures AllPlain(a + b)
  {
  }

  /** Reads one field: the key runs to the first `=`; a field without `=` has an empty value. */
  function ReadField(f: string): (p: Param)
    ensures '=' !in p.0
    ensures '=' in f ==> Field(p) == f
  {
    var i := IndexOf(f, '=');
    if i == |f| then (f, "")
    else
      assert f == f[..i] + "=" + f[i + 1..];
      (f[..i], f[i + 1..])
  }

  /** The reference reader of a query string. */
  function Parse(q: string): seq<Param> {
    var parts := Split(q, '&');
    seq(|parts|, k requires 0 <= k < |parts| => ReadField(parts[k]))
  }

  /**
   * The parameters of a URL, as `java.net.URL` splits it: the fragment
   * starts at the first `#`, and the query is what lies between the first
   * `?` and the fragment. A URL whose `?` is missing or falls in the
   * fragment has no query.
   */
  function ParseUrl(s: string): Option<seq<Param>> {
    var beforeFragment := s[..IndexOf(s, '#')];
    var i := IndexOf(beforeFragment, '?');
    if i == |beforeFragment| then None else Some(Parse(beforeFragment[i + 1..]))
  }

  function Fields(ps: seq<Param>): (fs: seq<string>)
    ensures |fs| == |ps|
    ensures forall k :: 0 <= k < |ps| ==> fs[k] == Field(ps[k])
  {
    seq(|ps|, k requires 0 <= k < |ps| => Field(ps[k]))
  }

  lemma {:induction false} RenderIsJoin(ps: seq<Param>)
    requires |ps| >= 1
    ensures Render(ps) == Join(Fields(ps), '&')
    decreases |ps|
  {
    if |ps| > 1 {
      RenderIsJoin(ps[1..]);
      assert Fields(ps)[1..] == Fields(ps[1..]);
      assert ps[1..][1..] == ps[2..];
    }
  }

  /** A plain parameter's field holds no `&` and reads back to the parameter. */
  lemma {:induction false} ReadFieldOfField(p: Param)
    requires Plain(p)
    ensures '&' !in Field(p) && '#' !in Field(p)
    ensures ReadField(Field(p)) == p
  {
    var f := Field(p);
    var key := p.0;
    assert f == key + "=" + p.1;
    assert forall j :: 0 <= j < |f| ==> f[j] in key || f[j] == '=' || f[j] in p.1 by {
      forall j | 0 <= j < |f|
        ensures f[j] in key || f[j] == '=' || f[j] in p.1
      {
        if j < |key| {
          assert f[j] == key[j];
        } else if j > |key| {
          assert f[j] == p.1[j - |key| - 1];
        }
      }
    }
    assert IndexOf(f, '=') == |key| by {
      assert f[|key|] == '=';
      assert forall j :: 0 <= j < |key| ==> f[j] == key[j];
    }
    assert f[..|key|] == key;
    assert f[|key| + 1..] == p.1;
  }

  /** A character found in no piece and differing from the separator is not in the joined text. */
  lemma {:induction false} JoinAvoids(parts: seq<string>, c: char, x: char)
    requires |parts| >= 1 && x != c
    requires forall k :: 0 <= k < |parts| ==> x !in parts[k]
    ensures x !in Join(parts, c)
    decreases |parts|
  {
    if |parts| > 1 {
      JoinAvoids(parts[1..], c, x);
      var rest := Join(parts[1..], c);
      var s := parts[0] + [c] + rest;
      forall j | 0 <= j < |s|
        ensures s[j] != x
      {
        if j < |parts[0]| {
          assert s[j] == parts[0][j];
        } else if j > |parts[0]| {
          assert s[j] == rest[j - |parts[0]| - 1];
        }
      }
    }
  }

  /**
   * Reading a rendered query gives back exactly the parameters, in order;
   * the rendering holds no `#`, so no part of it falls into a fragment.
   */
  lemma {:induction false} ParseRender(ps: seq<Param>)
    requires |ps| >= 1 && AllPlain(ps)
    ensures Parse(Render(ps)) == ps
    ensures '#' !in Render(ps)
  {
    RenderIsJoin(ps);
    var fs := Fields(ps);
    forall k | 0 <= k < |ps|
      ensures '&' !in fs[k] && '#' !in fs[k] && ReadField(fs[k]) == ps[k]
    {
      ReadFieldOfField(ps[k]);
    }
    SplitJoin(fs, '&');
    JoinAvoids(fs, '&', '#');
  }

  /**
   * A URL made of a head free of `?` and `#`, then `?` and a rendered query,
   * reads back to that query's parameters.
   */
  lemma {:induction false} ParseUrlOf(head: string, ps: seq<Param>)
    requires '?' !in head && '#' !in head
    requires |ps| >= 1 && AllPlain(ps)
    ensures ParseUrl(head + "?" + Render(ps)) == Some(ps)
  {
    var s := head + "?" + Render(ps);
    ParseRender(ps);
    assert IndexOf(s, '#') == |s| by {
      forall j | 0 <= j < |s|
        ensures s[j] != '#'
      {
        if j < |head| {
          assert s[j] == head[j];
        } else if j > |head| {
          assert s[j] == Render(ps)[j - |head| - 1];
        }
      }
    }
    assert s[..|s|] == s;
    assert IndexOf(s, '?') == |head| by {
      assert s[|head|] == '?';
      assert forall j :: 0 <= j < |head| ==> s[j] == head[j];
    }
    assert s[|head| + 1..] == Render(ps);
  }

  /** How many parameters of `ps` have key `key`. */
  function Occurrences(ps: seq<Param>, key: string): nat {
    if |ps| == 0 then 0
    else (if ps[0].0 == key then 1 else 0) + Occurrences(ps[1..], key)
  }

  lemma {:induction false} OccurrencesAppend(a: seq<Param>, b: seq<Param>, key: string)
    ensures Occurrences(a + b, key) == Occurrences(a, key) + Occurrences(b, key)
    decreases |a|
  {
    if |a| > 0 {
      assert (a + b)[1..] == a[1..] + b;
      OccurrencesAppend(a[1..], b, key);
    } else {
      assert a + b == b;
    }
  }

  /** `key` is not the key of any parameter in `ps`. */
  predicate KeyAbsent(ps: seq<Param>, key: string) {
    forall k :: 0 <= k < |ps| ==> ps[k].0 != key
  }

  predicate DistinctKeys(ps: seq<Param>) {
    forall i, j :: 0 <= i < j < |ps| ==> ps[i].0 != ps[j].0
  }

  /** A key is counted exactly when some parameter carries it. */
  lemma {:induction false} OccurrencesZero(ps: seq<Param>, key: string)
    ensures Occurrences(ps, key) == 0 <==> KeyAbsent(ps, key)
    decreases |ps|
  {
    if |ps| > 0 {
      OccurrencesZero(ps[1..], key);
      assert forall k :: 1 <= k < |ps| ==> ps[k] == ps[1..][k - 1];
    }
  }

  /** Parameters around `ps` that never carry `key` add nothing to its count. */
  lemma {:induction false} OccurrencesBetween(before: seq<Param>, ps: seq<Param>, after: seq<Param>, key: string)
    requires KeyAbsent(before, key) && KeyAbsent(after, key)
    ensures Occurrences(before + ps + after, key) == Occurrences(ps, key)
  {
    OccurrencesAppend(before + ps, after, key);
    OccurrencesAppend(before, ps, key);
    OccurrencesZero(before, key);
    OccurrencesZero(after, key);
  }

  /** With distinct keys, the key of each parameter occurs exactly once. */
  lemma {:induction false} DistinctKeysOccurOnce(ps: seq<Param>, i: nat)
    requires DistinctKeys(ps) && i < |ps|
    ensures Occurrences(ps, ps[i].0) == 1
    decreases |ps|
  {
    var rest := ps[1..];
    assert DistinctKeys(rest) by {
      assert forall k :: 0 <= k < |rest| ==> rest[k] == ps[k + 1];
    }
    if i == 0 {
      OccurrencesZero(rest, ps[0].0);
      assert forall k :: 0 <= k < |rest| ==> rest[k] == ps[k + 1];
    } else {
      assert ps[i] == rest[i - 1];
      DistinctKeysOccurOnce(rest, i - 1);
    }
  }
}
