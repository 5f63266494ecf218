/**
 Font resolution in `draw_text`. The font backend becomes a deterministic
 oracle `loads(name)`: true when loading the font file `name` succeeds,
 false when it raises `OSError` (which the search swallows). A loaded font
 is identified by the name it was loaded from. The search also records every
 name handed to the loader, in order, so that what is tried, and in which
 order, can be stated.
 */
module Fonts {
  import opened Basics

  /** `font_name`: one name (a Python `str`) or a tuple or list of names. */
  datatype FontSpec = Name(name: string) | Names(names: seq<string>, container: Container)

  type Loader = string -> bool

  /** The names handed to the loader so far, and the font currently held. */
  datatype Search = Search(tried: seq<string>, font: Option<string>)

  const Extension: string := ".ttf"

  /** The built-in fallback list, tried verbatim in this order. */
  const DefaultFonts: seq<string> :=
    ["arial.ttf",
     "/usr/share/fonts/truetype/freefont/FreeMono.ttf",
     "/System/Library/Fonts/SFNSDisplay.ttf"]

  /** The default value of the `font_name` parameter. */
  const DefaultFontName: FontSpec := Names(["Calibri", "Arial"], Tuple)

  /** One `try: font = truetype(name) except OSError: pass`: a failed load
      leaves the font held before. */
  function TryLoad(loads: Loader, name: string, s: Search): Search {
    Search(s.tried + [name], if loads(name) then Some(name) else s.font)
  }

  /** The `isinstance(font_name, str)` block: the name verbatim, then with
      ".ttf" appended only if that failed. A tuple skips the block. */
  function TryNamed(loads: Loader, spec: FontSpec, s: Search): Search {
    match spec
    case Names(_, _) => s
    case Name(n) =>
      var s1 := TryLoad(loads, n, s);
      if s1.font.None? then TryLoad(loads, n + Extension, s1) else s1
  }

  /** What `for font_string_name in font_name` iterates over: the tuple's
      names, or, for a string, its characters as one-character strings. */
  function LoopItems(spec: FontSpec): seq<string> {
    match spec
    case Names(ns, _) => ns
    case Name(n) => seq(|n|, i requires 0 <= i < |n| => [n[i]])
  }

  /**
   The list loop: each item verbatim, then with ".ttf" appended while no font
   is held, stopping at the first iteration that ends holding a font. Entered
   holding a font, it stops after its first iteration, whatever that loaded.
   */
  function ListLoop(loads: Loader, items: seq<string>, s: Search): (r: Search)
    ensures s.tried <= r.tried
    ensures s.font.Some? ==> r.font.Some?
    ensures s.font.Some? ==> r == (if |items| == 0 then s else TryLoad(loads, items[0], s))
    decreases |items|
  {
    if |items| == 0 then s
    else
      var s1 := TryLoad(loads, items[0], s);
      var s2 := if s1.font.None? then TryLoad(loads, items[0] + Extension, s1) else s1;
      if s2.font.Some? then s2 else ListLoop(loads, items[1..], s2)
  }

  /** The fallback loop: the names verbatim, in order, stopping at the first
      that loads. */
  function DefaultLoop(loads: Loader, names: seq<string>, s: Search): (r: Search)
    ensures |s.tried| <= |r.tried| <= |s.tried| + |names|
    ensures r.font.None? ==> s.font.None?
    decreases |names|
  {
    if |names| == 0 then s
    else
      var s1 := TryLoad(loads, names[0], s);
      if s1.font.Some? then s1 else DefaultLoop(loads, names[1..], s1)
  }

  /**
   Entered holding no font, the fallback loop tries exactly a prefix of
   `names`, in order; every tried name but the last failed; a held font is
   the last tried name and it loaded; if none loads, all were tried and no
   font is held.
   */
  lemma {:induction false} DefaultLoopFirstLoadable(loads: Loader, names: seq<string>, s: Search)
    requires s.font.None?
    ensures var r := DefaultLoop(loads, names, s);
            && r.tried == s.tried + names[..|r.tried| - |s.tried|]
            && (forall i | |s.tried| <= i < |r.tried| - 1 :: !loads(r.tried[i]))
            && (r.font.Some? ==> |r.tried| > |s.tried| && r.font == Some(r.tried[|r.tried| - 1])
                                 && loads(r.font.value))
            && (r.font.None? ==> r.tried == s.tried + names
                                 && forall i | 0 <= i < |names| :: !loads(names[i]))
    decreases |names|
  {
    if |names| > 0 {
      var s1 := TryLoad(loads, names[0], s);
      if s1.font.None? {
        DefaultLoopFirstLoadable(loads, names[1..], s1);
        var r := DefaultLoop(loads, names[1..], s1);
        assert names[..|r.tried| - |s.tried|] == [names[0]] + names[1..][..|r.tried| - |s1.tried|];
        assert names == [names[0]] + names[1..];
        forall i | |s.tried| <= i < |r.tried| - 1
          ensures !loads(r.tried[i])
        {
          if i == |s.tried| {
            assert r.tried[i] == names[0];
          }
        }
      }
    }
  }

  /**
   The whole font search of `draw_text`. A held font is one that loaded and
   was tried. When nothing loads, the whole fallback list was tried and the
   result is "no font", not an error.
   */
  function Resolve(loads: Loader, spec: FontSpec): (r: Search)
    ensures r.font.Some? ==> loads(r.font.value) && r.font.value in r.tried
    ensures r.font.None? ==> (forall i | 0 <= i < |r.tried| :: !loads(r.tried[i]))
                             && |r.tried| >= |DefaultFonts|
                             && r.tried[|r.tried| - |DefaultFonts|..] == DefaultFonts
  {
    var s1 := TryNamed(loads, spec, Search([], None));
    var s2 := if s1.font.Some? then ListLoop(loads, LoopItems(spec), s1) else s1;
    if s2.font.None? then
      DefaultLoopFirstLoadable(loads, DefaultFonts, s2);
      var r := DefaultLoop(loads, DefaultFonts, s2);
      assert r.font.None? ==> r.tried[|r.tried| - |DefaultFonts|..] == DefaultFonts;
      r
    else
      assert s2.font.value in s2.tried;
      s2
  }

  /** A string name is tried verbatim first, and with ".ttf" second exactly
      when the verbatim load failed. */
  lemma StringNameOrder(loads: Loader, n: string)
    ensures var r := Resolve(loads, Name(n));
            && |r.tried| >= 1 && r.tried[0] == n
            && (!loads(n) <==> |r.tried| >= 2 && r.tried[1] == n + Extension)
  {
    if loads(n) || loads(n + Extension) {
      NamedFontLoopRunsOnce(loads, n);
      if |n| > 0 {
        assert |[n[0]]| != |n + Extension|;
      }
    } else {
      StringNameFallsBack(loads, n);
    }
  }

  /**
   A string name that loads neither verbatim nor with ".ttf" skips the list
   loop, since no font is held, and goes straight to the fallback list: after
   the two failed attempts exactly a prefix of that list is tried, in order,
   every name of it but the last failing, and the last tried name is the
   font held, if any.
   */
  lemma StringNameFallsBack(loads: Loader, n: string)
    requires !loads(n) && !loads(n + Extension)
    ensures var r := Resolve(loads, Name(n));
            && r == DefaultLoop(loads, DefaultFonts, Search([n, n + Extension], None))
            && 2 <= |r.tried| <= 2 + |DefaultFonts|
            && r.tried == [n, n + Extension] + DefaultFonts[..|r.tried| - 2]
            && (forall i | 0 <= i < |r.tried| - 1 :: !loads(r.tried[i]))
            && (r.font.Some? ==> r.font == Some(r.tried[|r.tried| - 1]))
  {
    var s1 := Search([n, n + Extension], None);
    assert TryNamed(loads, Name(n), Search([], None)) == s1;
    DefaultLoopFirstLoadable(loads, DefaultFonts, s1);
  }

  /**
   A tuple's or list's names are never tried: exactly a prefix of the fallback list is,
   in order, every name of it but the last failing, and the last tried name
   is the font held, if any.
   */
  lemma TupleSearchOrder(loads: Loader, names: seq<string>, container: Container)
    ensures var r := Resolve(loads, Names(names, container));
            && r.tried <= DefaultFonts
            && (forall i | 0 <= i < |r.tried| - 1 :: !loads(r.tried[i]))
            && (r.font.Some? ==> r.font == Some(r.tried[|r.tried| - 1]))
  {
    var r := Resolve(loads, Names(names, container));
    assert r == DefaultLoop(loads, DefaultFonts, Search([], None));
    DefaultLoopFirstLoadable(loads, DefaultFonts, Search([], None));
    assert r.tried == DefaultFonts[..|r.tried|];
  }

  /**
   A string name that loads, verbatim or with ".ttf", never reaches the
   fallback list, and the list loop runs at most once: it tries the first
   character of the name, which replaces the font only if it loads.
   */
  lemma NamedFontLoopRunsOnce(loads: Loader, n: string)
    requires loads(n) || loads(n + Extension)
    ensures var found := if loads(n) then n else n + Extension;
            var named := if loads(n) then [n] else [n, n + Extension];
            Resolve(loads, Name(n)) ==
              if |n| == 0 then Search(named, Some(found))
              else Search(named + [[n[0]]], Some(if loads([n[0]]) then [n[0]] else found))
  {
    var s1 := TryNamed(loads, Name(n), Search([], None));
    assert s1 == Search(if loads(n) then [n] else [n, n + Extension],
                        Some(if loads(n) then n else n + Extension));
    if |n| > 0 {
      assert LoopItems(Name(n))[0] == [n[0]];
    }
  }

  /** The names in a tuple or list `font_name` play no part: every one
      resolves as the fallback list alone does, so the default ("Calibri", "Arial") is
      never loaded. */
  lemma TupleNamesIgnored(loads: Loader, names: seq<string>, container: Container)
    ensures Resolve(loads, Names(names, container)) == DefaultLoop(loads, DefaultFonts, Search([], None))
    ensures Resolve(loads, DefaultFontName) == Resolve(loads, Names(names, container))
  {
  }
}
