/**
  The template store: named HTML partials fetched from `/partials/<name>.html`,
  kept in a name-to-text cache together with the list of loaded names, filled
  in with `{{key}}` interpolation and rendered into page regions.
 */
module Partials {
  import opened Wrappers

  // ---------------------------------------------------------------------------
  // Interpolation: `html.replace(/\{\{(\w+)\}\}/g, ...)`
  // ---------------------------------------------------------------------------

  /** The regular-expression class `\w`: ASCII letters, digits and `_`. */
  predicate IsWordChar(c: char) {
    'a' <= c <= 'z' || 'A' <= c <= 'Z' || '0' <= c <= '9' || c == '_'
  }

  predicate AllWord(s: string) {
    forall i :: 0 <= i < |s| ==> IsWordChar(s[i])
  }

  /** The pattern `\{\{(\w+)\}\}` matches at the start of `s` with a key of `n` characters. */
  predicate MatchesAt(s: string, n: nat) {
    && n > 0 && n + 4 <= |s|
    && s[0] == '{' && s[1] == '{'
    && AllWord(s[2..n + 2])
    && s[n + 2] == '}' && s[n + 3] == '}'
  }

  /** Length of the longest run of word characters at the start of `s`. */
  function WordRun(s: string): (n: nat)
    ensures n <= |s|
    ensures forall i :: 0 <= i < n ==> IsWordChar(s[i])
    ensures n < |s| ==> !IsWordChar(s[n])
  {
    if s != [] && IsWordChar(s[0]) then 1 + WordRun(s[1..]) else 0
  }

  /** At most one key length can match at a given position: the run of word characters is maximal. */
  lemma MatchLengthIsWordRun(s: string, n: nat)
    ensures MatchesAt(s, n) ==> n == WordRun(s[2..])
  {
    if MatchesAt(s, n) {
      var w := WordRun(s[2..]);
      // the character closing the key is not a word character, so the run stops by it
      assert s[2..][n] == s[n + 2];
      // and every key character is a word character, so the run reaches it
      var j := if w < n then w else 0;
      assert s[2..][j] == s[2..n + 2][j];
    }
  }

  /**
    The key of the `{{key}}` match that starts at the first character of `s`,
    if the pattern matches there.
   */
  function PlaceholderAt(s: string): (key: Option<string>)
    ensures key.Some? ==> MatchesAt(s, |key.value|) && key.value == s[2..|key.value| + 2]
    ensures key.None? ==> forall n :: !MatchesAt(s, n)
  {
    if |s| >= 2 && s[0] == '{' && s[1] == '{' then
      var n := WordRun(s[2..]);
      if n > 0 && n + 4 <= |s| && s[n + 2] == '}' && s[n + 3] == '}' then
        assert s[2..n + 2] == s[2..][..n];
        Some(s[2..n + 2])
      else
        assert forall m :: MatchesAt(s, m) ==> m == n by {
          forall m ensures MatchesAt(s, m) ==> m == n { MatchLengthIsWordRun(s, m); }
        }
        None
    else None
  }

  /**
    One left-to-right pass over the template: at each position either a
    `{{key}}` match is replaced (by `data[key]`, or by the match itself when the
    key is absent) and the scan resumes after it, or one character is copied.
   */
  function Interpolate(t: string, data: map<string, string>): string
    decreases |t|
  {
    if t == [] then []
    else
      match PlaceholderAt(t)
      case Some(key) =>
        (if key in data then data[key] else t[..|key| + 4]) + Interpolate(t[|key| + 4..], data)
      case None => [t[0]] + Interpolate(t[1..], data)
  }

  /** Cutting a sequence at `n` and joining the pieces gives it back. */
  lemma SplitAt<T>(s: seq<T>, n: nat)
    requires n <= |s|
    ensures s[..n] + s[n..] == s
  {
  }

  /** With no data, every match keeps its own text: the template comes back unchanged. */
  lemma {:induction false} InterpolateWithoutData(t: string)
    ensures Interpolate(t, map[]) == t
  {
    if t != [] {
      match PlaceholderAt(t)
      case Some(key) =>
        var n := |key| + 4;
        assert Interpolate(t, map[]) == t[..n] + Interpolate(t[n..], map[]);
        InterpolateWithoutData(t[n..]);
        SplitAt(t, n);
      case None =>
        assert Interpolate(t, map[]) == [t[0]] + Interpolate(t[1..], map[]);
        InterpolateWithoutData(t[1..]);
        assert t == [t[0]] + t[1..];
    }
  }

  /** `t` contains no `{{`. */
  predicate NoOpening(t: string) {
    forall i :: 0 <= i < |t| - 1 ==> !(t[i] == '{' && t[i + 1] == '{')
  }

  /** A template without `{{` cannot match the pattern anywhere and is returned unchanged. */
  lemma {:induction false} InterpolateWithoutOpening(t: string, data: map<string, string>)
    requires NoOpening(t)
    ensures Interpolate(t, data) == t
  {
    if t != [] {
      assert PlaceholderAt(t).None? by {
        assert |t| >= 2 ==> !(t[0] == '{' && t[1] == '{');
      }
      assert NoOpening(t[1..]) by {
        forall i | 0 <= i < |t[1..]| - 1 ensures !(t[1..][i] == '{' && t[1..][i + 1] == '{') {
          assert t[1..][i] == t[i + 1] && t[1..][i + 1] == t[i + 2];
        }
      }
      InterpolateWithoutOpening(t[1..], data);
      assert t == [t[0]] + t[1..];
    }
  }

  /**
    A well-formed placeholder at the front is replaced by its value when the key
    is present and kept verbatim otherwise, and the scan continues after it:
    the substituted value is never scanned again.
   */
  lemma InterpolatePlaceholder(key: string, rest: string, data: map<string, string>)
    requires |key| > 0 && AllWord(key)
    ensures Interpolate("{{" + key + "}}" + rest, data)
         == (if key in data then data[key] else "{{" + key + "}}") + Interpolate(rest, data)
  {
    var t := "{{" + key + "}}" + rest;
    var n := |key|;
    assert t[2..n + 2] == key;
    assert t[n + 2] == '}' && t[n + 3] == '}';
    assert MatchesAt(t, n);
    var found := PlaceholderAt(t);
    assert found.Some?;
    MatchLengthIsWordRun(t, |found.value|);
    MatchLengthIsWordRun(t, n);
    assert found.value == key;
    assert t[..n + 4] == "{{" + key + "}}";
    assert t[n + 4..] == rest;
  }

  /** A first character other than `{` is copied as it is. */
  lemma InterpolatePlainStep(s: string, data: map<string, string>)
    requires s != [] && s[0] != '{'
    ensures Interpolate(s, data) == [s[0]] + Interpolate(s[1..], data)
  {
    assert PlaceholderAt(s).None?;
  }

  /** Text containing no `{` is copied through ahead of whatever follows it. */
  lemma {:induction false} InterpolateKeepsPlainText(p: string, t: string, data: map<string, string>)
    requires forall i :: 0 <= i < |p| ==> p[i] != '{'
    ensures Interpolate(p + t, data) == p + Interpolate(t, data)
  {
    if p != [] {
      var s := p + t;
      InterpolatePlainStep(s, data);
      assert s[1..] == p[1..] + t;
      InterpolateKeepsPlainText(p[1..], t, data);
      assert p == [p[0]] + p[1..];
    } else {
      assert p + t == t;
    }
  }

  /**
    A placeholder whose key is empty or holds a character outside `\w`
    (such as `{{a-b}}`) does not match and stays verbatim, whatever the data.
   */
  lemma MalformedPlaceholderVerbatim(key: string, data: map<string, string>)
    requires !(|key| > 0 && AllWord(key))
    requires forall i :: 0 <= i < |key| ==> key[i] != '{' && key[i] != '}'
    ensures Interpolate("{{" + key + "}}", data) == "{{" + key + "}}"
  {
    var t := "{{" + key + "}}";
    var n := |key|;
    assert PlaceholderAt(t).None? by {
      forall m: nat ensures !MatchesAt(t, m) {
        if 0 < m < n {
          assert t[m + 2] == key[m];
        } else if m == n {
          assert t[2..m + 2] == key;
        }
      }
    }
    assert t[1..] == "{" + key + "}}";
    assert NoOpening(t[1..]) by {
      forall i | 0 <= i < |t[1..]| - 1 ensures !(t[1..][i] == '{' && t[1..][i + 1] == '{') {
        if 1 <= i <= n { assert t[1..][i] == key[i - 1]; }
        else if i == 0 && n > 0 { assert t[1..][1] == key[0]; }
      }
    }
    InterpolateWithoutOpening(t[1..], data);
    assert t == [t[0]] + t[1..];
  }

  // ---------------------------------------------------------------------------
  // The cache and its loading
  // ---------------------------------------------------------------------------

  /** The template server: the body of `/partials/<name>.html`, or a failed response. */
  type Source = string -> Option<string>

  /** What a cached render shows for `name`: the cached body, or `''` after a failed load. */
  function TextFor(cache: map<string, string>, name: string): string {
    if name in cache then cache[name] else ""
  }

  /** The cache after `load(name)` with the cache enabled. */
  function PreloadStep(cache: map<string, string>, name: string, source: Source): map<string, string> {
    if name in cache then cache
    else
      match source(name)
      case Some(text) => cache[name := text]
      case None => cache
  }

  /** The cache after loading `names` one after the other with the cache enabled. */
  function Preloaded(cache: map<string, string>, names: seq<string>, source: Source): (r: map<string, string>)
    ensures forall n :: n in cache ==> n in r && r[n] == cache[n]
    ensures forall n :: n in names ==> n in r || source(n).None?
    ensures forall n :: n in r ==> n in cache || (n in names && source(n) == Some(r[n]))
    decreases |names|
  {
    if names == [] then cache
    else
      var init := names[..|names| - 1];
      assert forall n :: n in names ==> n in init || n == names[|names| - 1];
      PreloadStep(Preloaded(cache, init, source), names[|names| - 1], source)
  }

  /** Loading names that are all cached already, or all fail, leaves the cache as it was. */
  lemma {:induction false} PreloadedUnchanged(cache: map<string, string>, names: seq<string>, source: Source)
    requires forall n :: n in names ==> n in cache || source(n).None?
    ensures Preloaded(cache, names, source) == cache
  {
    if names != [] {
      var init := names[..|names| - 1];
      assert forall n :: n in init ==> n in names;
      PreloadedUnchanged(cache, init, source);
    }
  }

  /** Preloading the same names twice fills the cache exactly as preloading them once. */
  lemma PreloadTwice(cache: map<string, string>, names: seq<string>, source: Source)
    ensures Preloaded(Preloaded(cache, names, source), names, source) == Preloaded(cache, names, source)
  {
    PreloadedUnchanged(Preloaded(cache, names, source), names, source);
  }

  predicate Distinct<T(==)>(s: seq<T>) {
    forall i, j :: 0 <= i < j < |s| ==> s[i] != s[j]
  }

  /** `Set.prototype.add`: appended unless already present, so insertion order is kept. */
  function Added<T(==)>(s: seq<T>, x: T): seq<T> {
    if x in s then s else s + [x]
  }

  /** The page: each resolvable container selector and the markup it currently holds. */
  class Page {
    var regions: map<string, string>

    constructor (regions: map<string, string>)
      ensures this.regions == regions
    {
      this.regions := regions;
    }
  }

  class PartialsManager {
    var cache: map<string, string>
    var loadedPartials: seq<string>

    /** The loaded names are exactly the cached names, each once, in insertion order. */
    ghost predicate Valid()
      reads this
    {
      && (forall n :: n in loadedPartials <==> n in cache)
      && Distinct(loadedPartials)
    }

    constructor ()
      ensures Valid()
      ensures cache == map[] && loadedPartials == []
    {
      cache := map[];
      loadedPartials := [];
    }

    /**
      `load(name, useCache)`: a cache hit answers from the cache; otherwise the
      template is fetched, and a successful fetch is stored and recorded while a
      failed one answers `''` and changes nothing.
     */
    method Load(name: string, useCache: bool, source: Source) returns (html: string)
      requires Valid()
      modifies this
      ensures Valid()
      ensures useCache && name in old(cache) ==>
        html == old(cache)[name] && cache == old(cache) && loadedPartials == old(loadedPartials)
      ensures !(useCache && name in old(cache)) && source(name).Some? ==>
        && html == source(name).value
        && cache == old(cache)[name := html]
        && loadedPartials == Added(old(loadedPartials), name)
      ensures !(useCache && name in old(cache)) && source(name).None? ==>
        html == "" && cache == old(cache) && loadedPartials == old(loadedPartials)
    {
      if useCache && name in cache {
        return cache[name];
      }
      match source(name)
      case Some(text) =>
        html := text;
        cache := cache[name := html];
        loadedPartials := Added(loadedPartials, name);
      case None =>
        html := "";
    }

    /**
      `render(name, container, data)`: an unresolvable container changes nothing
      and yields no element; otherwise the container's content becomes the
      interpolated template (loaded with the cache) and the container is returned.
     */
    method Render(name: string, container: string, data: map<string, string>, page: Page, source: Source)
      returns (element: Option<string>)
      requires Valid()
      modifies this, page
      ensures Valid()
      ensures container !in old(page.regions) ==>
        && element == None
        && cache == old(cache) && loadedPartials == old(loadedPartials)
        && page.regions == old(page.regions)
      ensures container in old(page.regions) ==>
        && element == Some(container)
        && cache == PreloadStep(old(cache), name, source)
        && loadedPartials == (if cache == old(cache) then old(loadedPartials) else old(loadedPartials) + [name])
        && page.regions == old(page.regions)[container := Interpolate(TextFor(cache, name), data)]
    {
      if container !in page.regions {
        return None;
      }
      var html := Load(name, true, source);
      page.regions := page.regions[container := Interpolate(html, data)];
      element := Some(container);
    }

    /** `preload(names)`: every name is loaded (with the cache), one after another. */
    method Preload(names: seq<string>, source: Source)
      requires Valid()
      modifies this
      ensures Valid()
      ensures cache == Preloaded(old(cache), names, source)
      ensures |old(loadedPartials)| <= |loadedPartials|
      ensures loadedPartials[..|old(loadedPartials)|] == old(loadedPartials)
    {
      for i := 0 to |names|
        invariant Valid()
        invariant cache == Preloaded(old(cache), names[..i], source)
        invariant |old(loadedPartials)| <= |loadedPartials|
        invariant loadedPartials[..|old(loadedPartials)|] == old(loadedPartials)
      {
        var _ := Load(names[i], true, source);
        assert names[..i + 1][..i] == names[..i];
      }
      assert names[..|names|] == names;
    }

    /** `clearCache()`: both the cache and the loaded names are emptied. */
    method ClearCache()
      modifies this
      ensures Valid()
      ensures cache == map[] && loadedPartials == []
    {
      cache := map[];
      loadedPartials := [];
    }

    /** `getLoadedPartials()`: the loaded names, which are exactly the cached ones. */
    function LoadedPartials(): (names: seq<string>)
      reads this
      requires Valid()
      ensures forall n :: n in names <==> n in cache
      ensures Distinct(names)
    {
      loadedPartials
    }
  }
}
