// Go's path/filepath.Clean and filepath.Join on slash-separated paths.
module GoPath {
  import opened Text

  /** A path element that Clean keeps as it is. */
  predicate IsName(e: string) {
    e != "" && e != "." && e != ".." && '/' !in e
  }

  /**
   * One left-to-right pass of Clean over the elements: empty and "." elements
   * vanish, ".." removes the element before it, or stays at the front of a
   * relative path, or vanishes at the root of a rooted one.
   */
  function CleanElems(elems: seq<string>, rooted: bool, stack: seq<string>): seq<string>
    decreases |elems|
  {
    if elems == [] then stack
    else
      var e := elems[0];
      var next :=
        if e == "" || e == "." then stack
        else if e == ".." then
          (if |stack| > 0 && stack[|stack| - 1] != ".." then stack[..|stack| - 1]
           else if rooted then stack
           else stack + [".."])
        else stack + [e];
      CleanElems(elems[1..], rooted, next)
  }

  /** filepath.Clean: the shortest lexically equivalent path. */
  function Clean(p: string): string {
    if p == "" then "."
    else
      var rooted := p[0] == '/';
      var st := CleanElems(Split(p, '/'), rooted, []);
      if rooted then "/" + JoinWith(st, "/")
      else if st == [] then "."
      else JoinWith(st, "/")
  }

  function NonEmpty(elems: seq<string>): (r: seq<string>)
    ensures forall i :: 0 <= i < |r| ==> r[i] != ""
  {
    if elems == [] then []
    else if elems[0] == "" then NonEmpty(elems[1..])
    else [elems[0]] + NonEmpty(elems[1..])
  }

  /** filepath.Join: empty elements are ignored, the rest joined by "/" and cleaned. */
  function Join(elems: seq<string>): string {
    var ne := NonEmpty(elems);
    if ne == [] then "" else Clean(JoinWith(ne, "/"))
  }

  lemma {:induction false} CleanElemsAppendName(elems: seq<string>, rooted: bool, stack: seq<string>, e: string)
    requires IsName(e)
    ensures CleanElems(elems + [e], rooted, stack) == CleanElems(elems, rooted, stack) + [e]
    decreases |elems|
  {
    if elems == [] {
      assert ([] + [e])[1..] == [];
    } else {
      var e0 := elems[0];
      var next :=
        if e0 == "" || e0 == "." then stack
        else if e0 == ".." then
          (if |stack| > 0 && stack[|stack| - 1] != ".." then stack[..|stack| - 1]
           else if rooted then stack
           else stack + [".."])
        else stack + [e0];
      assert (elems + [e])[1..] == elems[1..] + [e];
      CleanElemsAppendName(elems[1..], rooted, next, e);
    }
  }

  lemma {:induction false} SplitAppend(x: string, y: string, sep: char)
    ensures Split(x + [sep] + y, sep) == Split(x, sep) + Split(y, sep)
  {
    if x == [] {
      assert [] + [sep] + y == [sep] + y;
      assert ([sep] + y)[1..] == y;
    } else {
      assert (x + [sep] + y)[1..] == x[1..] + [sep] + y;
      SplitAppend(x[1..], y, sep);
    }
  }

  lemma {:induction false} SplitOfName(e: string)
    requires IsName(e)
    ensures Split(e, '/') == [e]
  {
    SplitCount(e, '/');
    SplitJoin(e, '/');
  }

  lemma {:induction false} SplitJoinEndsWithName(parts: seq<string>, e: string)
    requires parts != [] && parts[|parts| - 1] == e && IsName(e)
    ensures exists front :: Split(JoinWith(parts, "/"), '/') == front + [e]
  {
    if |parts| == 1 {
      SplitOfName(e);
      assert Split(JoinWith(parts, "/"), '/') == [] + [e];
    } else {
      SplitJoinEndsWithName(parts[1..], e);
      var front :| Split(JoinWith(parts[1..], "/"), '/') == front + [e];
      assert JoinWith(parts, "/") == parts[0] + ['/'] + JoinWith(parts[1..], "/");
      SplitAppend(parts[0], JoinWith(parts[1..], "/"), '/');
      assert Split(JoinWith(parts, "/"), '/') == (Split(parts[0], '/') + front) + [e];
    }
  }

  lemma {:induction false} JoinWithEnds(parts: seq<string>, e: string)
    requires parts != [] && parts[|parts| - 1] == e
    ensures HasSuffix(JoinWith(parts, "/"), e)
  {
    if |parts| > 1 {
      JoinWithEnds(parts[1..], e);
      var j := JoinWith(parts[1..], "/");
      assert JoinWith(parts, "/") == (parts[0] + "/") + j;
      assert (parts[0] + "/" + j)[|parts[0] + "/" + j| - |e|..] == j[|j| - |e|..];
    }
  }

  lemma NonEmptyLast(elems: seq<string>, e: string)
    requires elems != [] && elems[|elems| - 1] == e && e != ""
    ensures NonEmpty(elems) != [] && NonEmpty(elems)[|NonEmpty(elems)| - 1] == e
  {
    if |elems| > 1 {
      NonEmptyLast(elems[1..], e);
    }
  }

  /** Whatever precedes it, a plain file name given last to Join is the last element of the result. */
  lemma JoinEndsWithName(elems: seq<string>, e: string)
    requires elems != [] && elems[|elems| - 1] == e && IsName(e)
    ensures HasSuffix(Join(elems), e)
  {
    var ne := NonEmpty(elems);
    NonEmptyLast(elems, e);
    var p := JoinWith(ne, "/");
    SplitJoinEndsWithName(ne, e);
    var front :| Split(p, '/') == front + [e];
    JoinWithEnds(ne, e);
    assert p != "";
    var rooted := p[0] == '/';
    CleanElemsAppendName(front, rooted, [], e);
    var st := CleanElems(front, rooted, []) + [e];
    JoinWithEnds(st, e);
    if rooted {
      var j := JoinWith(st, "/");
      assert ("/" + j)[|"/" + j| - |e|..] == j[|j| - |e|..];
    }
  }
}
