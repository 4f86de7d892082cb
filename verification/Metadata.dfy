/** Open Graph metadata of a page: the mutating tree walk of linkpreview.go and what it chooses. */
module Metadata {
  import opened Common

  datatype Kind = Element | Text | Other

  datatype Attr = Attr(key: string, val: string)

  /** An HTML tree by first child and next sibling. */
  datatype Tree = Nil | Node(kind: Kind, data: string, attrs: seq<Attr>, first: Tree, next: Tree)

  datatype Preview = Preview(url: string, title: string, description: string, image: string, siteName: string)

  const BLANK := Preview("", "", "", "", "")

  /**
    Library calls: trimming and unescaping a text, making an image reference absolute ("" if it cannot be
    parsed), and resolving an og:url (None if it cannot be).
  */
  datatype Lib = Lib(clean: string -> string, absolute: string -> string, resolve: string -> Option<string>)

  // ---------- one node ----------

  /** The attribute loop keeps the last value of a key. */
  function Value(attrs: seq<Attr>, key: string): string {
    if attrs == [] then ""
    else if attrs[|attrs| - 1].key == key then attrs[|attrs| - 1].val
    else Value(attrs[..|attrs| - 1], key)
  }

  predicate IsMeta(lib: Lib, n: Tree) {
    n.Node? && n.kind.Element? && n.data == "meta" && Content(lib, n) != ""
  }

  function Content(lib: Lib, n: Tree): string
    requires n.Node?
  {
    lib.clean(Value(n.attrs, "content"))
  }

  /** The content of a meta node whose property attribute is this one. */
  function Property(lib: Lib, n: Tree, prop: string): Option<string> {
    if IsMeta(lib, n) && Value(n.attrs, "property") == prop then Some(Content(lib, n)) else None
  }

  function Named(lib: Lib, n: Tree, key: string, val: string): Option<string> {
    if IsMeta(lib, n) && Value(n.attrs, key) == val then Some(Content(lib, n)) else None
  }

  function Either(a: Option<string>, b: Option<string>): Option<string> {
    if a.Some? then a else b
  }

  /** A non-empty text of a title element. */
  function TitleElement(lib: Lib, n: Tree): Option<string> {
    if n.Node? && n.kind.Element? && n.data == "title" && n.first.Node? && n.first.kind.Text?
       && lib.clean(n.first.data) != ""
    then Some(lib.clean(n.first.data))
    else None
  }

  function OgTitle(lib: Lib, n: Tree): Option<string> { Property(lib, n, "og:title") }

  function OtherTitle(lib: Lib, n: Tree): Option<string> {
    Either(Either(Named(lib, n, "name", "twitter:title"), Named(lib, n, "itemprop", "name")), TitleElement(lib, n))
  }

  function OgDescription(lib: Lib, n: Tree): Option<string> { Property(lib, n, "og:description") }

  function OtherDescription(lib: Lib, n: Tree): Option<string> {
    Either(Either(Named(lib, n, "name", "twitter:description"), Named(lib, n, "itemprop", "description")),
           Named(lib, n, "name", "description"))
  }

  function OgImage(lib: Lib, n: Tree): Option<string> {
    match Property(lib, n, "og:image") case None => None case Some(c) => Some(lib.absolute(c))
  }

  /** A twitter:image reference that can be made absolute. */
  function TwitterImage(lib: Lib, n: Tree): Option<string> {
    match Named(lib, n, "name", "twitter:image")
    case None => None
    case Some(c) => if lib.absolute(c) == "" then None else Some(lib.absolute(c))
  }

  function OgSite(lib: Lib, n: Tree): Option<string> { Property(lib, n, "og:site_name") }

  function OgUrl(lib: Lib, n: Tree): Option<string> {
    match Property(lib, n, "og:url") case None => None case Some(c) => lib.resolve(c)
  }

  // ---------- the choice ----------

  /** The document order of a forest of siblings. */
  function Preorder(t: Tree): (ns: seq<Tree>) {
    if t.Nil? then [] else [t] + Preorder(t.first) + Preorder(t.next)
  }

  function Last(ns: seq<Tree>, f: Tree -> Option<string>): Option<string> {
    if ns == [] then None else if f(ns[|ns| - 1]).Some? then f(ns[|ns| - 1]) else Last(ns[..|ns| - 1], f)
  }

  function First(ns: seq<Tree>, f: Tree -> Option<string>): Option<string> {
    if ns == [] then None
    else if First(ns[..|ns| - 1], f).Some? then First(ns[..|ns| - 1], f)
    else f(ns[|ns| - 1])
  }

  /** The nodes from the last one that satisfies f; all of them if none does. */
  function FromLast(ns: seq<Tree>, f: Tree -> Option<string>): seq<Tree> {
    if ns == [] then []
    else if f(ns[|ns| - 1]).Some? then [ns[|ns| - 1]]
    else FromLast(ns[..|ns| - 1], f) + [ns[|ns| - 1]]
  }

  /** The last preferred value if there is one, else the first alternative. */
  function Choose(ns: seq<Tree>, preferred: Tree -> Option<string>, other: Tree -> Option<string>): string {
    OrEmpty(Either(Last(ns, preferred), First(ns, other)))
  }

  /** The last og:image; if there is none or it is unusable, the first usable twitter:image from there on. */
  function ChooseImage(ns: seq<Tree>, og: Tree -> Option<string>, twitter: Tree -> Option<string>): string {
    var image := OrEmpty(Last(ns, og));
    if image != "" then image else OrEmpty(First(FromLast(ns, og), twitter))
  }

  // ---------- the walk ----------

  class Walker {
    const lib: Lib
    var p: Preview

    constructor (lib: Lib)
      ensures this.lib == lib && p == BLANK
    {
      this.lib := lib;
      p := BLANK;
    }

    method ReadAttrs(attrs: seq<Attr>) returns (prop: string, name: string, itemprop: string, content: string)
      ensures prop == Value(attrs, "property") && name == Value(attrs, "name")
      ensures itemprop == Value(attrs, "itemprop") && content == Value(attrs, "content")
    {
      prop, name, itemprop, content := "", "", "", "";
      for i := 0 to |attrs|
        invariant prop == Value(attrs[..i], "property") && name == Value(attrs[..i], "name")
        invariant itemprop == Value(attrs[..i], "itemprop") && content == Value(attrs[..i], "content")
      {
        var a := attrs[i];
        assert attrs[..i + 1][..i] == attrs[..i];
        if a.key == "property" {
          prop := a.val;
        } else if a.key == "name" {
          name := a.val;
        } else if a.key == "itemprop" {
          itemprop := a.val;
        } else if a.key == "content" {
          content := a.val;
        }
      }
      assert attrs[..|attrs|] == attrs;
    }

    method SetProperty(prop: string, content: string)
      modifies this`p
      ensures p.title == if prop == "og:title" then content else old(p).title
      ensures p.description == if prop == "og:description" then content else old(p).description
      ensures p.image == if prop == "og:image" then lib.absolute(content) else old(p).image
      ensures p.siteName == if prop == "og:site_name" then content else old(p).siteName
      ensures p.url == if prop == "og:url" then OrOld(lib.resolve(content), old(p).url) else old(p).url
    {
      if prop == "og:title" {
        p := p.(title := content);
      } else if prop == "og:description" {
        p := p.(description := content);
      } else if prop == "og:image" {
        p := p.(image := lib.absolute(content));
      } else if prop == "og:site_name" {
        p := p.(siteName := content);
      } else if prop == "og:url" {
        var u := lib.resolve(content);
        if u.Some? {
          p := p.(url := u.value);
        }
      }
    }

    method VisitMeta(n: Tree)
      requires n.Node? && n.kind.Element? && n.data == "meta"
      modifies this`p
      ensures p == Visited(lib, old(p), n)
    {
      var prop, name, itemprop, content := ReadAttrs(n.attrs);
      content := lib.clean(content);
      if content == "" {
        return;
      }
      SetProperty(prop, content);
      FillEmpty(name, itemprop, content);
    }

    method FillEmpty(name: string, itemprop: string, content: string)
      requires content != ""
      modifies this`p
      ensures p.url == old(p).url && p.siteName == old(p).siteName
      ensures p.title == if old(p).title == "" && (name == "twitter:title" || itemprop == "name")
                         then content else old(p).title
      ensures p.description == if old(p).description == "" && (name == "twitter:description"
                                 || itemprop == "description" || name == "description")
                               then content else old(p).description
      ensures p.image == if old(p).image == "" && name == "twitter:image" then lib.absolute(content) else old(p).image
    {
      if p.title == "" && (name == "twitter:title" || itemprop == "name") {
        p := p.(title := content);
      }
      if p.description == "" && (name == "twitter:description" || itemprop == "description") {
        p := p.(description := content);
      }
      if p.image == "" && name == "twitter:image" {
        p := p.(image := lib.absolute(content));
      }
      if p.description == "" && name == "description" {
        p := p.(description := content);
      }
    }

    method Walk(n: Tree)
      requires n.Node?
      modifies this`p
      ensures p == Fold(lib, old(p), [n] + Preorder(n.first))
      decreases n
    {
      ghost var start := p;
      if n.kind.Element? {
        if n.data == "meta" {
          VisitMeta(n);
        } else if n.data == "title" {
          if p.title == "" && n.first.Node? && n.first.kind.Text? {
            p := p.(title := lib.clean(n.first.data));
          }
        }
      }
      FoldCons(lib, start, n, Preorder(n.first));
      assert p == Visited(lib, start, n);
      var c := n.first;
      while c.Node?
        invariant c.Node? ==> c < n
        invariant Fold(lib, p, Preorder(c)) == Fold(lib, start, [n] + Preorder(n.first))
        decreases c
      {
        FoldConcat(lib, p, [c] + Preorder(c.first), Preorder(c.next));
        Walk(c);
        c := c.next;
      }
    }

    /** parseHTML: the chosen metadata of a parsed document. */
    method Parse(doc: Tree)
      requires doc.Node? && doc.next.Nil? && p == BLANK
      modifies this`p
      ensures var ns := Preorder(doc);
              && p.title == Choose(ns, n => OgTitle(lib, n), n => OtherTitle(lib, n))
              && p.description == Choose(ns, n => OgDescription(lib, n), n => OtherDescription(lib, n))
              && p.image == ChooseImage(ns, n => OgImage(lib, n), n => TwitterImage(lib, n))
              && p.siteName == OrEmpty(Last(ns, n => OgSite(lib, n)))
              && p.url == OrEmpty(Last(ns, n => OgUrl(lib, n)))
    {
      Walk(doc);
      assert [doc] + Preorder(doc.first) == Preorder(doc);
      WalkChooses(lib, Preorder(doc));
    }
  }

  /** What visiting one node does to the preview, field by field. */
  function Visited(lib: Lib, p: Preview, n: Tree): Preview {
    Preview(OrOld(OgUrl(lib, n), p.url),
            Overwrite(p.title, OgTitle(lib, n), OtherTitle(lib, n)),
            Overwrite(p.description, OgDescription(lib, n), OtherDescription(lib, n)),
            Overwrite(p.image, OgImage(lib, n), TwitterImage(lib, n)),
            OrOld(OgSite(lib, n), p.siteName))
  }

  function OrOld(o: Option<string>, x: string): string {
    if o.Some? then o.value else x
  }

  /** A preferred value overwrites; an alternative fills only what is then empty. */
  function Overwrite(x: string, preferred: Option<string>, other: Option<string>): string {
    var y := OrOld(preferred, x);
    if y == "" then OrOld(other, y) else y
  }

  function Fold(lib: Lib, p: Preview, ns: seq<Tree>): Preview {
    if ns == [] then p else Visited(lib, Fold(lib, p, ns[..|ns| - 1]), ns[|ns| - 1])
  }

  lemma {:induction false} FoldConcat(lib: Lib, p: Preview, a: seq<Tree>, b: seq<Tree>)
    ensures Fold(lib, p, a + b) == Fold(lib, Fold(lib, p, a), b)
  {
    if b == [] {
      assert a + b == a;
    } else {
      assert (a + b)[..|a + b| - 1] == a + b[..|b| - 1];
      FoldConcat(lib, p, a, b[..|b| - 1]);
    }
  }

  lemma FoldCons(lib: Lib, p: Preview, n: Tree, b: seq<Tree>)
    ensures Fold(lib, p, [n] + b) == Fold(lib, Visited(lib, p, n), b)
  {
    FoldConcat(lib, p, [n], b);
    assert Fold(lib, p, [n]) == Visited(lib, Fold(lib, p, [n][..0]), n);
  }

  /** Values that are never empty: filling the first empty slot is choosing the first. */
  predicate NonEmpty(o: Option<string>) {
    o.Some? ==> o.value != ""
  }

  lemma {:induction false} TitleChosen(lib: Lib, ns: seq<Tree>)
    ensures Fold(lib, BLANK, ns).title == Choose(ns, n => OgTitle(lib, n), n => OtherTitle(lib, n))
    ensures NonEmpty(Last(ns, n => OgTitle(lib, n))) && NonEmpty(First(ns, n => OtherTitle(lib, n)))
  {
    if ns != [] {
      TitleChosen(lib, ns[..|ns| - 1]);
    }
  }

  lemma {:induction false} DescriptionChosen(lib: Lib, ns: seq<Tree>)
    ensures Fold(lib, BLANK, ns).description == Choose(ns, n => OgDescription(lib, n), n => OtherDescription(lib, n))
    ensures NonEmpty(Last(ns, n => OgDescription(lib, n))) && NonEmpty(First(ns, n => OtherDescription(lib, n)))
  {
    if ns != [] {
      DescriptionChosen(lib, ns[..|ns| - 1]);
    }
  }

  lemma FromLastStep(most: seq<Tree>, last: Tree, f: Tree -> Option<string>, g: Tree -> Option<string>)
    ensures Last(most + [last], f) == if f(last).Some? then f(last) else Last(most, f)
    ensures First(FromLast(most + [last], f), g) ==
            if f(last).Some? then g(last) else Either(First(FromLast(most, f), g), g(last))
  {
    assert (most + [last])[..|most|] == most;
    var from := FromLast(most, f);
    assert (from + [last])[..|from|] == from;
    assert First([last], g) == g(last) by {
      assert [last][..0] == [];
    }
  }

  lemma {:induction false} ImageChosen(lib: Lib, ns: seq<Tree>)
    ensures Fold(lib, BLANK, ns).image == ChooseImage(ns, n => OgImage(lib, n), n => TwitterImage(lib, n))
    ensures NonEmpty(First(FromLast(ns, n => OgImage(lib, n)), n => TwitterImage(lib, n)))
  {
    if ns != [] {
      var most, last := ns[..|ns| - 1], ns[|ns| - 1];
      ImageChosen(lib, most);
      var og, twitter := n => OgImage(lib, n), n => TwitterImage(lib, n);
      FromLastStep(most, last, og, twitter);
      assert most + [last] == ns;
    }
  }

  lemma {:induction false} SiteAndUrlChosen(lib: Lib, ns: seq<Tree>)
    ensures Fold(lib, BLANK, ns).siteName == OrEmpty(Last(ns, n => OgSite(lib, n)))
    ensures Fold(lib, BLANK, ns).url == OrEmpty(Last(ns, n => OgUrl(lib, n)))
  {
    if ns != [] {
      SiteAndUrlChosen(lib, ns[..|ns| - 1]);
    }
  }

  /** The mutating walk is a choice over the nodes in document order. */
  lemma WalkChooses(lib: Lib, ns: seq<Tree>)
    ensures var p := Fold(lib, BLANK, ns);
            && p.title == Choose(ns, n => OgTitle(lib, n), n => OtherTitle(lib, n))
            && p.description == Choose(ns, n => OgDescription(lib, n), n => OtherDescription(lib, n))
            && p.image == ChooseImage(ns, n => OgImage(lib, n), n => TwitterImage(lib, n))
            && p.siteName == OrEmpty(Last(ns, n => OgSite(lib, n)))
            && p.url == OrEmpty(Last(ns, n => OgUrl(lib, n)))
  {
    TitleChosen(lib, ns);
    DescriptionChosen(lib, ns);
    ImageChosen(lib, ns);
    SiteAndUrlChosen(lib, ns);
  }

  // ---------- what the walk meets, and in what order ----------

  /** A step from a node to its first child or to its next sibling. */
  datatype Turn = Down | Along

  function At(t: Tree, path: seq<Turn>): Tree {
    if path == [] || t.Nil? then t else At(if path[0].Down? then t.first else t.next, path[1..])
  }

  function Size(t: Tree): nat {
    if t.Nil? then 0 else 1 + Size(t.first) + Size(t.next)
  }

  /** Where document order puts the node at the end of a path: behind its parent, or behind its left sibling's subtree. */
  function Position(t: Tree, path: seq<Turn>): nat {
    if path == [] || t.Nil? then 0
    else if path[0].Down? then 1 + Position(t.first, path[1..])
    else 1 + Size(t.first) + Position(t.next, path[1..])
  }

  /** Every node of the document is met, in document order, and nothing else: as many as there are. */
  lemma {:induction false} PreorderHasNode(t: Tree, path: seq<Turn>)
    requires At(t, path).Node?
    ensures |Preorder(t)| == Size(t)
    ensures Position(t, path) < |Preorder(t)| && Preorder(t)[Position(t, path)] == At(t, path)
    decreases t
  {
    PreorderSize(t);
    if path != [] {
      PreorderHasNode(if path[0].Down? then t.first else t.next, path[1..]);
      PreorderSize(t.first);
    }
  }

  lemma {:induction false} PreorderSize(t: Tree)
    ensures |Preorder(t)| == Size(t)
  {
    if t.Node? {
      PreorderSize(t.first);
      PreorderSize(t.next);
    }
  }

  /** A node that is met is at the end of some path. */
  lemma {:induction false} PreorderIsNode(t: Tree, n: Tree) returns (path: seq<Turn>)
    requires n in Preorder(t)
    ensures n.Node? && At(t, path) == n
  {
    if n == t {
      path := [];
    } else if n in Preorder(t.first) {
      var rest := PreorderIsNode(t.first, n);
      path := [Down] + rest;
    } else {
      var rest := PreorderIsNode(t.next, n);
      path := [Along] + rest;
    }
  }

  /** Visiting a meta element with content: its property overwrites, its other names fill what is then empty. */
  lemma VisitedMeta(lib: Lib, p: Preview, n: Tree)
    requires n.Node? && n.kind.Element? && n.data == "meta"
    ensures var prop, name, item := Value(n.attrs, "property"), Value(n.attrs, "name"), Value(n.attrs, "itemprop");
            var c := lib.clean(Value(n.attrs, "content"));
            var q := Preview(if prop == "og:url" && lib.resolve(c).Some? then lib.resolve(c).value else p.url,
                             if prop == "og:title" then c else p.title,
                             if prop == "og:description" then c else p.description,
                             if prop == "og:image" then lib.absolute(c) else p.image,
                             if prop == "og:site_name" then c else p.siteName);
            Visited(lib, p, n) ==
            if c == "" then p
            else Preview(q.url,
                         if q.title == "" && (name == "twitter:title" || item == "name") then c else q.title,
                         if q.description == "" && (name == "twitter:description" || item == "description"
                                                    || name == "description") then c else q.description,
                         if q.image == "" && name == "twitter:image" then lib.absolute(c) else q.image,
                         q.siteName)
  {
  }

  /** Visiting a title element: its text fills an empty title. Any other node changes nothing. */
  lemma VisitedOther(lib: Lib, p: Preview, n: Tree)
    requires !(n.Node? && n.kind.Element? && n.data == "meta")
    ensures Visited(lib, p, n) ==
            if n.Node? && n.kind.Element? && n.data == "title" && n.first.Node? && n.first.kind.Text? && p.title == ""
            then p.(title := lib.clean(n.first.data)) else p
  {
  }

  /** The value of an attribute is that of the last one with its key. */
  lemma {:induction false} ValueIsLast(attrs: seq<Attr>, i: nat)
    requires i < |attrs| && forall j | i < j < |attrs| :: attrs[j].key != attrs[i].key
    ensures Value(attrs, attrs[i].key) == attrs[i].val
  {
    if i < |attrs| - 1 {
      ValueIsLast(attrs[..|attrs| - 1], i);
    }
  }

  /** Last and First find a value if any node has one: that of the last, or the first, that has. */
  lemma {:induction false} LastAndFirst(ns: seq<Tree>, f: Tree -> Option<string>, i: nat)
    requires i < |ns| && f(ns[i]).Some?
    ensures (forall j | i < j < |ns| :: f(ns[j]).None?) ==> Last(ns, f) == f(ns[i])
    ensures (forall j | 0 <= j < i :: f(ns[j]).None?) ==> First(ns, f) == f(ns[i])
  {
    var most := ns[..|ns| - 1];
    if i < |most| {
      LastAndFirst(most, f, i);
    } else if forall j | 0 <= j < i :: f(ns[j]).None? {
      assert forall j | 0 <= j < |most| :: most[j] == ns[j];
      NoneFound(most, f);
    }
  }

  lemma {:induction false} NoneFound(ns: seq<Tree>, f: Tree -> Option<string>)
    requires forall i | 0 <= i < |ns| :: f(ns[i]).None?
    ensures Last(ns, f).None? && First(ns, f).None?
  {
    if ns != [] {
      NoneFound(ns[..|ns| - 1], f);
    }
  }
}
