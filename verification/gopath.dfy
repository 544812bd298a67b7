/** Go's `path/filepath` on a Unix system: Clean, Join, Dir, Base, and Rel for
    the case the backup browser needs. */
module GoPath {
  import opened GoStrings

  /** One step of lexical cleaning: drop empty and "." names, let ".." remove
      the name before it, and drop a ".." that would climb above the root. */
  function CleanStep(stack: seq<string>, name: string, rooted: bool): seq<string>
  {
    if name == "" || name == "." then stack
    else if name == ".." then
      if |stack| > 0 && stack[|stack| - 1] != ".." then stack[..|stack| - 1]
      else if rooted then stack
      else stack + [".."]
    else stack + [name]
  }

  function CleanNames(names: seq<string>, rooted: bool): seq<string>
  {
    if names == [] then []
    else CleanStep(CleanNames(names[..|names| - 1], rooted), names[|names| - 1], rooted)
  }

  /** filepath.Clean: the shortest lexically equivalent path. */
  function Clean(p: string): (r: string)
    ensures r != ""
  {
    var rooted := |p| > 0 && p[0] == '/';
    var body := JoinWith(CleanNames(Split(p, '/'), rooted), '/');
    if rooted then "/" + body else if body == "" then "." else body
  }

  /** filepath.Join: the elements from the first non-empty one on, joined
      with '/' and cleaned; "" when every element is empty. */
  function Join(elems: seq<string>): string
  {
    if elems == [] then ""
    else if elems[0] == "" then Join(elems[1..])
    else Clean(JoinWith(elems, '/'))
  }

  /** The position of the last '/' in `p`, or -1. */
  function LastSlash(p: string): (i: int)
    ensures -1 <= i < |p|
    ensures 0 <= i ==> p[i] == '/'
    ensures forall k :: i < k < |p| ==> p[k] != '/'
  {
    if p == [] then -1
    else if p[|p| - 1] == '/' then |p| - 1
    else LastSlash(p[..|p| - 1])
  }

  /** filepath.Dir: everything up to the last '/', cleaned. */
  function Dir(p: string): string
  {
    Clean(p[..LastSlash(p) + 1])
  }

  function TrimTrailingSlashes(p: string): (r: string)
    ensures |r| <= |p|
  {
    if p != [] && p[|p| - 1] == '/' then TrimTrailingSlashes(p[..|p| - 1]) else p
  }

  /** filepath.Base: the last name of the path; "." for "" and "/" for a
      path of slashes only. */
  function Base(p: string): string
  {
    if p == "" then "."
    else
      var t := TrimTrailingSlashes(p);
      var name := t[LastSlash(t) + 1..];
      if name == "" then "/" else name
  }

  /** A file or directory name: not empty, not "." nor "..". */
  predicate IsName(s: string) { s != "" && s != "." && s != ".." }

  /** An absolute path that Clean leaves unchanged: "/" or a '/' followed by
      names separated by single slashes. */
  predicate CleanAbs(p: string)
  {
    p == "/" || (|p| >= 2 && p[0] == '/' && AllNames(p[1..]))
  }

  /** filepath.Rel(base, targ) for two clean absolute paths of which `base`
      is a string prefix of `targ` -- the only way the backup browser calls
      it. When the prefix does not end at a name boundary the result starts
      with "..". */
  function Rel(base: string, targ: string): string
    requires CleanAbs(base) && CleanAbs(targ) && HasPrefix(targ, base)
  {
    if targ == base then "."
    else if base == "/" then targ[1..]
    else if targ[|base|] == '/' then targ[|base| + 1..]
    else "../" + targ[LastSlash(base) + 1..]
  }

  predicate AllNames(s: string)
  {
    var names := Split(s, '/');
    forall k :: 0 <= k < |names| ==> IsName(names[k])
  }

  /** The character facts NamesChars establishes, for one string. */
  predicate SlashesSeparateNames(s: string)
  {
    s != "" && s[0] != '/' && s != "." &&
    forall i :: 0 <= i < |s| && s[i] == '/' ==> i + 1 < |s| && s[i + 1] != '/' && s[i + 1..] != "."
  }

  lemma SlashesSeparateNamesCons(s: string, j: int)
    requires 0 < j < |s| && s[j] == '/' && '/' !in s[..j]
    requires SlashesSeparateNames(s[j + 1..])
    ensures SlashesSeparateNames(s)
  {
    var t := s[j + 1..];
    assert s[0] in s[..j];
    forall i | 0 <= i < |s| && s[i] == '/'
      ensures i + 1 < |s| && s[i + 1] != '/' && s[i + 1..] != "."
    {
      if i > j {
        assert t[i - j - 1] == '/';
        assert s[i + 1..] == t[i - j..];
      }
    }
  }

  /** What a list of names separated by single slashes says about its
      characters: it does not start with '/', it is not ".", and every '/'
      is followed by the start of a name. */
  lemma {:induction false} NamesChars(s: string)
    requires AllNames(s)
    ensures SlashesSeparateNames(s)
    decreases |s|
  {
    var j := IndexByte(s, '/');
    if j >= 0 {
      AllNamesTail(s);
      NamesChars(s[j + 1..]);
      SlashesSeparateNamesCons(s, j);
    } else {
      assert Split(s, '/') == [s];
      assert IsName(Split(s, '/')[0]);
    }
  }

  lemma AllNamesTail(s: string)
    requires AllNames(s) && IndexByte(s, '/') >= 0
    ensures var j := IndexByte(s, '/'); j > 0 && AllNames(s[j + 1..])
  {
    var j := IndexByte(s, '/');
    var names := Split(s, '/');
    var t := s[j + 1..];
    assert names == [s[..j]] + Split(t, '/');
    assert IsName(names[0]);
    assert forall k :: 0 <= k < |Split(t, '/')| ==> Split(t, '/')[k] == names[k + 1];
  }

  lemma CleanAbsChars(p: string)
    requires CleanAbs(p) && p != "/"
    ensures p[|p| - 1] != '/'
    ensures forall i :: 0 <= i < |p| && p[i] == '/' ==> i + 1 < |p| && p[i + 1] != '/' && p[i + 1..] != "."
  {
    var s := p[1..];
    NamesChars(s);
    assert s[|s| - 1] != '/';
    forall i | 0 <= i < |p| && p[i] == '/'
      ensures i + 1 < |p| && p[i + 1] != '/' && p[i + 1..] != "."
    {
      if i > 0 {
        assert s[i - 1] == '/';
        assert p[i + 1..] == s[i..];
      }
    }
  }

  /** Below the base, Rel is a non-empty relative path that is not "." and
      neither starts nor ends with '/'. */
  lemma RelShape(base: string, targ: string)
    requires CleanAbs(base) && CleanAbs(targ) && HasPrefix(targ, base) && targ != base
    ensures var r := Rel(base, targ); r != "" && r != "." && r[0] != '/' && r[|r| - 1] != '/'
  {
    CleanAbsChars(targ);
    if base == "/" {
      assert targ[0] == '/';
    } else if targ[|base|] == '/' {
    } else {
      var r := Rel(base, targ);
      assert r[|r| - 1] == targ[|targ| - 1];
    }
  }

  /** Rel gives "." exactly for the base itself. */
  lemma RelIsDot(base: string, targ: string)
    requires CleanAbs(base) && CleanAbs(targ) && HasPrefix(targ, base)
    ensures Rel(base, targ) == "." <==> targ == base
  {
    if targ != base {
      RelShape(base, targ);
    }
  }
}
