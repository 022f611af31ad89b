/** The element trees the source builds with lxml, as values. A
    `parameters` element of a plain operator is a list of `<tag>text</tag>`
    children, written here as `Param` records. */
module Xml {
  import opened Wrappers
  import opened Text

  datatype Element = Element(tag: string, attributes: seq<(string, string)>, text: Option<string>, children: seq<Element>)

  /** `<tag>text</tag>` with no attributes and no children. */
  function TextElement(tag: string, text: string): (r: Element)
  {
    Element(tag, [], Some(text), [])
  }

  /** One `<tag>text</tag>` child of a `parameters` element. */
  datatype Param = Param(tag: string, text: string)

  /** The `<tag>text</tag>` elements for the given children, in order. */
  function Elements(ps: seq<Param>): (es: seq<Element>)
    ensures |es| == |ps|
    ensures forall i :: 0 <= i < |ps| ==> es[i] == TextElement(ps[i].tag, ps[i].text)
  {
    seq(|ps|, i requires 0 <= i < |ps| => TextElement(ps[i].tag, ps[i].text))
  }

  /** Reads `<tag>text</tag>` children back; a child without text reads as
      empty text, as lxml's `findtext` gives. */
  function Unelements(es: seq<Element>): (ps: seq<Param>)
    ensures |ps| == |es|
  {
    seq(|es|, i requires 0 <= i < |es| => Param(es[i].tag, if es[i].text.Some? then es[i].text.value else ""))
  }

  lemma UnelementsElements(ps: seq<Param>)
    ensures Unelements(Elements(ps)) == ps
  {
  }

  /** The `parameters` element holding the given children, in order. */
  function Parameters(ps: seq<Param>): (e: Element)
    ensures e.tag == "parameters" && e.attributes == [] && e.text == None
    ensures Unelements(e.children) == ps
  {
    UnelementsElements(ps);
    Element("parameters", [], None, Elements(ps))
  }

  /** A child that is present only when there is a text for it. */
  function Child(tag: string, text: Option<string>): (r: seq<Param>)
  {
    if text.Some? then [Param(tag, text.value)] else []
  }

  /** The child `tag` is present with this text, or absent when there is none. */
  predicate Emits(ps: seq<Param>, tag: string, text: Option<string>)
  {
    match text
    case Some(t) => Carries(ps, tag, t)
    case None => Lacks(ps, tag)
  }

  /** The children for `tags[i]` with text `texts[i]`, in the order of
      `tags`, leaving out the tags that have no text. */
  function Present(tags: seq<string>, texts: seq<Option<string>>): (r: seq<Param>)
    requires |tags| == |texts|
  {
    if |tags| == 0 then [] else Child(tags[0], texts[0]) + Present(tags[1..], texts[1..])
  }

  function Tags(ps: seq<Param>): (r: seq<string>)
    ensures |r| == |ps|
    ensures forall i :: 0 <= i < |ps| ==> r[i] == ps[i].tag
  {
    if |ps| == 0 then [] else [ps[0].tag] + Tags(ps[1..])
  }

  /** A child `<tag>text</tag>` is present. */
  predicate Carries(ps: seq<Param>, tag: string, text: string)
  {
    Param(tag, text) in ps
  }

  /** No child has this tag. */
  predicate Lacks(ps: seq<Param>, tag: string)
  {
    forall p :: p in ps ==> p.tag != tag
  }

  /** The text of the first child with this tag, as lxml's `findtext`. */
  function Lookup(ps: seq<Param>, tag: string): (r: Option<string>)
  {
    if |ps| == 0 then None
    else if ps[0].tag == tag then Some(ps[0].text)
    else Lookup(ps[1..], tag)
  }

  /** `xs` is `ys` with some items left out, the rest in the same order. */
  predicate IsSubsequence(xs: seq<string>, ys: seq<string>)
  {
    if |xs| == 0 then true
    else if |ys| == 0 then false
    else if xs[0] == ys[0] then IsSubsequence(xs[1..], ys[1..])
    else IsSubsequence(xs, ys[1..])
  }

  predicate Distinct(xs: seq<string>)
  {
    forall i, j :: 0 <= i < j < |xs| ==> xs[i] != xs[j]
  }

  /** The children of `ps` come in the fixed order `order`. */
  predicate InOrder(ps: seq<Param>, order: seq<string>)
  {
    IsSubsequence(Tags(ps), order)
  }

  lemma {:induction false} SubsequenceMembers(xs: seq<string>, ys: seq<string>, x: string)
    requires IsSubsequence(xs, ys) && x in xs
    ensures x in ys
  {
    if xs[0] == ys[0] {
      if x != xs[0] {
        SubsequenceMembers(xs[1..], ys[1..], x);
      }
    } else {
      SubsequenceMembers(xs, ys[1..], x);
    }
  }

  lemma {:induction false} SubsequenceDistinct(xs: seq<string>, ys: seq<string>)
    requires Distinct(ys) && IsSubsequence(xs, ys)
    ensures Distinct(xs)
  {
    if |xs| > 0 {
      if xs[0] == ys[0] {
        assert Distinct(ys[1..]) by {
          forall i, j | 0 <= i < j < |ys[1..]| ensures ys[1..][i] != ys[1..][j] {
            assert ys[1..][i] == ys[i + 1] && ys[1..][j] == ys[j + 1];
          }
        }
        SubsequenceDistinct(xs[1..], ys[1..]);
        forall j | 0 < j < |xs| ensures xs[0] != xs[j] {
          assert xs[j] == xs[1..][j - 1];
          SubsequenceMembers(xs[1..], ys[1..], xs[j]);
          var m :| 0 <= m < |ys[1..]| && ys[1..][m] == xs[j];
          assert ys[m + 1] == xs[j];
        }
        forall i, j | 0 <= i < j < |xs| ensures xs[i] != xs[j] {
          if i > 0 {
            assert xs[i] == xs[1..][i - 1] && xs[j] == xs[1..][j - 1];
          }
        }
      } else {
        assert Distinct(ys[1..]) by {
          forall i, j | 0 <= i < j < |ys[1..]| ensures ys[1..][i] != ys[1..][j] {
            assert ys[1..][i] == ys[i + 1] && ys[1..][j] == ys[j + 1];
          }
        }
        SubsequenceDistinct(xs, ys[1..]);
      }
    }
  }

  /** With no repeated tag, `Lookup` finds the one child that has the tag. */
  lemma {:induction false} LookupUnique(ps: seq<Param>, tag: string, text: string)
    requires Distinct(Tags(ps)) && Carries(ps, tag, text)
    ensures Lookup(ps, tag) == Some(text)
  {
    if ps[0] != Param(tag, text) {
      var i :| 0 <= i < |ps| && ps[i] == Param(tag, text);
      assert Tags(ps)[0] != Tags(ps)[i];
      assert ps[1..][i - 1] == ps[i];
      assert Distinct(Tags(ps[1..])) by {
        forall a, b | 0 <= a < b < |ps[1..]| ensures Tags(ps[1..])[a] != Tags(ps[1..])[b] {
          assert Tags(ps)[a + 1] != Tags(ps)[b + 1];
        }
      }
      LookupUnique(ps[1..], tag, text);
    }
  }

  lemma {:induction false} LookupAbsent(ps: seq<Param>, tag: string)
    requires Lacks(ps, tag)
    ensures Lookup(ps, tag) == None
  {
    if |ps| > 0 {
      assert ps[0] in ps;
      LookupAbsent(ps[1..], tag);
    }
  }

  /** In a list whose tags follow a duplicate-free order, the child a
      contract says is present is the one `Lookup` finds. */
  lemma {:induction false} CarriesLookup(ps: seq<Param>, order: seq<string>, tag: string, text: string)
    requires Distinct(order) && InOrder(ps, order) && Carries(ps, tag, text)
    ensures Lookup(ps, tag) == Some(text)
  {
    SubsequenceDistinct(Tags(ps), order);
    LookupUnique(ps, tag, text);
  }

  lemma {:induction false} PresentMembers(tags: seq<string>, texts: seq<Option<string>>, p: Param)
    requires |tags| == |texts|
    ensures p in Present(tags, texts) <==> exists i :: 0 <= i < |tags| && tags[i] == p.tag && texts[i] == Some(p.text)
  {
    if |tags| > 0 {
      PresentMembers(tags[1..], texts[1..], p);
      if exists i :: 0 <= i < |tags| && tags[i] == p.tag && texts[i] == Some(p.text) {
        var i :| 0 <= i < |tags| && tags[i] == p.tag && texts[i] == Some(p.text);
        if i > 0 {
          assert tags[1..][i - 1] == p.tag && texts[1..][i - 1] == Some(p.text);
        }
      }
      if p in Present(tags[1..], texts[1..]) {
        var i :| 0 <= i < |tags[1..]| && tags[1..][i] == p.tag && texts[1..][i] == Some(p.text);
        assert tags[i + 1] == p.tag && texts[i + 1] == Some(p.text);
      }
    }
  }

  /** Each tag of a duplicate-free list is emitted with its text, or left
      out when it has none. */
  lemma {:induction false} PresentAt(tags: seq<string>, texts: seq<Option<string>>, k: int)
    requires |tags| == |texts| && Distinct(tags) && 0 <= k < |tags|
    ensures Emits(Present(tags, texts), tags[k], texts[k])
  {
    var r := Present(tags, texts);
    match texts[k]
    case Some(t) =>
      PresentMembers(tags, texts, Param(tags[k], t));
    case None =>
      forall p | p in r ensures p.tag != tags[k] {
        PresentMembers(tags, texts, p);
      }
  }

  lemma {:induction false} PresentInOrder(tags: seq<string>, texts: seq<Option<string>>)
    requires |tags| == |texts|
    ensures InOrder(Present(tags, texts), tags)
  {
    if |tags| > 0 {
      PresentInOrder(tags[1..], texts[1..]);
      var rest := Present(tags[1..], texts[1..]);
      if texts[0].Some? {
        var r := Present(tags, texts);
        assert r == [Param(tags[0], texts[0].value)] + rest;
        assert Tags(r)[1..] == Tags(rest);
      } else {
        assert Present(tags, texts) == rest;
        SubsequenceSkipFirst(Tags(rest), tags);
      }
    }
  }

  /** A list in order against `ys[1..]` is also in order against `ys`. */
  lemma {:induction false} SubsequenceSkipFirst(xs: seq<string>, ys: seq<string>)
    requires |ys| > 0 && IsSubsequence(xs, ys[1..])
    ensures IsSubsequence(xs, ys)
    decreases |ys|, 1
  {
    if |xs| > 0 && xs[0] == ys[0] {
      SubsequenceDropFirst(xs, ys[1..]);
    }
  }

  /** Leaving out the first item keeps a list in order. */
  lemma {:induction false} SubsequenceDropFirst(xs: seq<string>, ys: seq<string>)
    requires |xs| > 0 && IsSubsequence(xs, ys)
    ensures IsSubsequence(xs[1..], ys)
    decreases |ys|, 2
  {
    if xs[0] == ys[0] {
      if |xs| > 1 {
        SubsequenceSkipFirst(xs[1..], ys);
      }
    } else {
      SubsequenceDropFirst(xs, ys[1..]);
      if |xs| > 1 {
        SubsequenceSkipFirst(xs[1..], ys);
      }
    }
  }

  /** When every tag has a text, each tag is emitted once, in order. */
  lemma {:induction false} PresentAll(tags: seq<string>, texts: seq<Option<string>>)
    requires |tags| == |texts| && forall i :: 0 <= i < |texts| ==> texts[i].Some?
    ensures var r := Present(tags, texts);
      |r| == |tags| && forall i :: 0 <= i < |r| ==> r[i] == Param(tags[i], texts[i].value)
  {
    if |tags| > 0 {
      PresentAll(tags[1..], texts[1..]);
      var r := Present(tags, texts);
      var rest := Present(tags[1..], texts[1..]);
      assert r == [Param(tags[0], texts[0].value)] + rest;
      forall i | 0 < i < |r| ensures r[i] == Param(tags[i], texts[i].value) {
        assert r[i] == rest[i - 1];
      }
    }
  }

  /** When no tag has a text, nothing is emitted. */
  lemma {:induction false} PresentNone(tags: seq<string>, texts: seq<Option<string>>)
    requires |tags| == |texts| && forall i :: 0 <= i < |texts| ==> texts[i].None?
    ensures Present(tags, texts) == []
  {
    if |tags| > 0 {
      PresentNone(tags[1..], texts[1..]);
    }
  }

  /** Emitting a list of tags is emitting its first `k` tags, then the rest. */
  lemma {:induction false} PresentAppend(tags: seq<string>, texts: seq<Option<string>>, k: int)
    requires |tags| == |texts| && 0 <= k <= |tags|
    ensures Present(tags, texts) == Present(tags[..k], texts[..k]) + Present(tags[k..], texts[k..])
  {
    if k > 0 {
      PresentAppend(tags[1..], texts[1..], k - 1);
      assert tags[1..][..k - 1] == tags[..k][1..] && texts[1..][..k - 1] == texts[..k][1..];
      assert tags[1..][k - 1..] == tags[k..] && texts[1..][k - 1..] == texts[k..];
    } else {
      assert tags[k..] == tags && texts[k..] == texts;
    }
  }

  /** The first child for a tag of a duplicate-free list holds that tag's text. */
  lemma {:induction false} LookupPresent(tags: seq<string>, texts: seq<Option<string>>, k: int)
    requires |tags| == |texts| && Distinct(tags) && 0 <= k < |tags|
    ensures Lookup(Present(tags, texts), tags[k]) == texts[k]
  {
    var rest := Present(tags[1..], texts[1..]);
    if k == 0 {
      if texts[0].None? {
        assert Present(tags, texts) == rest;
        LookupPresentAbsent(tags[1..], texts[1..], tags[0]);
      }
    } else {
      assert tags[1..][k - 1] == tags[k];
      LookupPresent(tags[1..], texts[1..], k - 1);
      if texts[0].Some? {
        var r := Present(tags, texts);
        assert r[0].tag == tags[0] != tags[k];
        assert r[1..] == rest;
      } else {
        assert Present(tags, texts) == rest;
      }
    }
  }

  /** A tag outside the list is not found. */
  lemma {:induction false} LookupPresentAbsent(tags: seq<string>, texts: seq<Option<string>>, tag: string)
    requires |tags| == |texts| && tag !in tags
    ensures Lookup(Present(tags, texts), tag) == None
  {
    if |tags| > 0 {
      LookupPresentAbsent(tags[1..], texts[1..], tag);
      if texts[0].Some? {
        var r := Present(tags, texts);
        assert r[0].tag == tags[0] != tag;
        assert r[1..] == Present(tags[1..], texts[1..]);
      } else {
        assert Present(tags, texts) == Present(tags[1..], texts[1..]);
      }
    }
  }

  /** `','.join(xs)`, emitted only when the list is non-empty. */
  function Listed(xs: seq<string>): (r: Option<string>)
  {
    if |xs| > 0 then Some(Join(",", xs)) else None
  }

  /** Reads a list emitted by `Listed` back: an absent child is the empty list. */
  function Unlisted(text: Option<string>): (r: seq<string>)
  {
    if text.Some? then Split(text.value, ',') else []
  }

  /** Lists whose items contain no comma survive `Listed` and `Unlisted`. */
  lemma {:induction false} UnlistedListed(xs: seq<string>)
    requires forall i :: 0 <= i < |xs| ==> ',' !in xs[i]
    ensures Unlisted(Listed(xs)) == xs
  {
    if |xs| > 0 {
      SplitJoin(xs, ',');
      assert [','] == ",";
    }
  }

  /** What a contract says about one tag is what `Lookup` reads back. */
  lemma {:induction false} EmitsLookup(ps: seq<Param>, order: seq<string>, tag: string, text: Option<string>)
    requires Distinct(order) && InOrder(ps, order) && Emits(ps, tag, text)
    ensures Lookup(ps, tag) == text
  {
    if text.Some? {
      CarriesLookup(ps, order, tag, text.value);
    } else {
      LookupAbsent(ps, tag);
    }
  }

  function ReadInt(ps: seq<Param>, tag: string): (r: Option<int>)
  {
    var t :- Lookup(ps, tag);
    ParseInt(t)
  }

  function ReadBool(ps: seq<Param>, tag: string): (r: Option<bool>)
  {
    var t :- Lookup(ps, tag);
    ParseBool(t)
  }
}
