/** Reading back what the writer wrote. */
module XmlRoundTrip {
  import opened Wrappers
  import opened XmlWriter
  import opened XmlReader

  /** The string without the characters XML does not allow. */
  function Allowed(s: string): string {
    if s == "" then "" else (if XmlChar(s[0]) then [s[0]] else "") + Allowed(s[1..])
  }

  function CleanAttrs(attrs: seq<Attr>): seq<Attr> {
    if attrs == [] then [] else [Attr(attrs[0].key, Allowed(attrs[0].value))] + CleanAttrs(attrs[1..])
  }

  /** The tree a tag stands for: disallowed characters are dropped, and an
      empty text and a node without children are the same. */
  function Clean(t: Tag): Element {
    Element(t.name, CleanAttrs(t.attrs),
            match t
            case TextTag(_, text, _) => if Allowed(text) == "" then Empty else Text(Allowed(text))
            case NodeTag(_, children, _) => if children == [] then Empty else Children(CleanAll(children)))
  }

  function CleanAll(tags: seq<Tag>): seq<Element> {
    if tags == [] then [] else [Clean(tags[0])] + CleanAll(tags[1..])
  }

  predicate IsName(s: string) { s != "" && forall c | c in s :: NameChar(c) }

  predicate NamedAttrs(attrs: seq<Attr>) { forall a | a in attrs :: IsName(a.key) }

  /** Names come from the program, not from NRK. */
  predicate Named(t: Tag) {
    && IsName(t.name) && NamedAttrs(t.attrs)
    && (t.NodeTag? ==> forall child | child in t.children :: Named(child))
  }

  // ---------- characters ----------

  lemma {:induction false} FirstMatch(a: seq<Pair>, b: seq<Pair>, c: char)
    ensures Replacement(a + b, c) == if Replacement(a, c).Some? then Replacement(a, c) else Replacement(b, c)
  {
    if a == [] {
      assert a + b == b;
    } else {
      assert (a + b)[1..] == a[1..] + b;
      FirstMatch(a[1..], b, c);
    }
  }

  lemma {:induction false} ControlsDropped(n: nat, c: char)
    requires n <= 0x20
    ensures Replacement(Controls(n), c)
         == if c as int < n && c != '\t' && c != '\n' && c != '\r' then Some("") else None
  {
    if n > 0 {
      ControlsDropped(n - 1, c);
      var last := (n - 1) as char;
      FirstMatch(Controls(n - 1), if last == '\t' || last == '\n' || last == '\r' then [] else [Pair(last, "")], c);
    }
  }

  /** Outside its own pairs, an escaper drops exactly what XML does not allow. */
  lemma EscapingAt(pairs: seq<Pair>, c: char)
    ensures Replacement(Escaping(pairs), c)
         == if Replacement(pairs, c).Some? then Replacement(pairs, c) else if XmlChar(c) then None else Some("")
  {
    hide Controls;
    FirstMatch(pairs + Controls(0x20), NONCHARACTERS, c);
    FirstMatch(pairs, Controls(0x20), c);
    ControlsDropped(0x20, c);
    PairAt(NONCHARACTERS[0], NONCHARACTERS[1..], c);
    PairAt(NONCHARACTERS[1], [], c);
  }

  lemma PairAt(p: Pair, rest: seq<Pair>, c: char)
    ensures Replacement([p] + rest, c) == if p.plain == c then Some(p.entity) else Replacement(rest, c)
  {}

  lemma TextPair(c: char)
    ensures Replacement(TEXT_PAIRS, c)
         == if c == '&' then Some("&amp;")
            else if c == '<' then Some("&lt;")
            else if c == '>' then Some("&gt;") else None
  {
    PairAt(TEXT_PAIRS[0], TEXT_PAIRS[1..], c);
    PairAt(TEXT_PAIRS[1], TEXT_PAIRS[2..], c);
    PairAt(TEXT_PAIRS[2], [], c);
    assert [TEXT_PAIRS[0]] + TEXT_PAIRS[1..] == TEXT_PAIRS;
    assert [TEXT_PAIRS[1]] + TEXT_PAIRS[2..] == TEXT_PAIRS[1..];
    assert [TEXT_PAIRS[2]] + [] == TEXT_PAIRS[2..];
  }

  lemma AttrPair(c: char)
    ensures Replacement(ATTR_PAIRS, c)
         == if c == '"' then Some("&quot;") else if c == '\'' then Some("&apos;") else Replacement(TEXT_PAIRS, c)
  {
    FirstMatch(TEXT_PAIRS, [Pair('"', "&quot;"), Pair('\'', "&apos;")], c);
    TextPair(c);
    PairAt(Pair('"', "&quot;"), [Pair('\'', "&apos;")], c);
  }

  /** Every entity the writer uses reads back as its character. */
  lemma {:induction false} EntityReads(entities: seq<(string, char)>, i: nat, rest: string)
    requires i < |entities| && (forall e | e in entities :: e.0 != "")
    requires forall j | 0 <= j < i :: !(entities[j].0 <= entities[i].0 + rest)
    ensures ReadEntity(entities[i].0 + rest, entities) == Some(Read(entities[i].1, rest))
  {
    var s := entities[i].0 + rest;
    assert s[|entities[i].0|..] == rest;
    if i > 0 {
      assert !(entities[0].0 <= s);
      EntityReads(entities[1..], i - 1, rest);
    }
  }

  lemma KnownEntity(i: nat, rest: string)
    requires i < 5
    ensures ReadEntity(ENTITIES[i].0 + rest, ENTITIES) == Some(Read(ENTITIES[i].1, rest))
  {
    var entity := ENTITIES[i].0;
    var s := entity + rest;
    assert s[1] == entity[1] && s[2] == entity[2];
    forall j | 0 <= j < i ensures !(ENTITIES[j].0 <= s) {
      assert ENTITIES[j].0[1] != entity[1] || ENTITIES[j].0[2] != entity[2];
    }
    EntityReads(ENTITIES, i, rest);
  }

  /** What the escaper puts for a character reads back as that character, or
      is nothing at all. */
  predicate CharReadsBack(escaping: seq<Pair>, end: char, c: char, rest: string)
    requires rest != ""
  {
    var r := Replacement(escaping, c);
    var s := (if r.Some? then r.value else [c]) + rest;
    if XmlChar(c) then s[0] != end && ReadChar(s) == Some(Read(c, rest)) else r == Some("")
  }

  ghost predicate ReadsBack(escaping: seq<Pair>, end: char) {
    forall c: char, rest: string | rest != "" :: CharReadsBack(escaping, end, c, rest)
  }

  lemma TextReadsBack()
    ensures ReadsBack(Escaping(TEXT_PAIRS), '<')
  {
    hide Escaping, ReadEntity, Replacement;
    forall c: char, rest: string | rest != ""
      ensures CharReadsBack(Escaping(TEXT_PAIRS), '<', c, rest)
    {
      EscapingAt(TEXT_PAIRS, c);
      TextPair(c);
      EntitiesRead(rest);
      assert ([c] + rest)[1..] == rest;
    }
  }

  lemma AttrReadsBack()
    ensures ReadsBack(Escaping(ATTR_PAIRS), '"')
  {
    hide Escaping, ReadEntity, Replacement;
    forall c: char, rest: string | rest != ""
      ensures CharReadsBack(Escaping(ATTR_PAIRS), '"', c, rest)
    {
      EscapingAt(ATTR_PAIRS, c);
      AttrPair(c);
      TextPair(c);
      EntitiesRead(rest);
      assert ([c] + rest)[1..] == rest;
    }
  }

  lemma EntitiesRead(rest: string)
    ensures ReadEntity("&amp;" + rest, ENTITIES) == Some(Read('&', rest))
    ensures ReadEntity("&lt;" + rest, ENTITIES) == Some(Read('<', rest))
    ensures ReadEntity("&gt;" + rest, ENTITIES) == Some(Read('>', rest))
    ensures ReadEntity("&quot;" + rest, ENTITIES) == Some(Read('"', rest))
    ensures ReadEntity("&apos;" + rest, ENTITIES) == Some(Read('\'', rest))
  {
    hide ReadEntity;
    KnownEntity(0, rest);
    KnownEntity(1, rest);
    KnownEntity(2, rest);
    KnownEntity(3, rest);
    KnownEntity(4, rest);
  }

  lemma {:induction false} CharsRoundTrip(escaping: seq<Pair>, s: string, end: char, rest: string)
    requires ReadsBack(escaping, end) && rest != "" && rest[0] == end
    ensures ReadChars(Replace(escaping, s) + rest, end) == Some(Read(Allowed(s), rest))
  {
    hide Replacement, ReadChar;
    if s == "" {
      assert Replace(escaping, s) + rest == rest;
    } else {
      var c, tail := s[0], Replace(escaping, s[1..]) + rest;
      CharsRoundTrip(escaping, s[1..], end, rest);
      var r := Replacement(escaping, c);
      var front := if r.Some? then r.value else [c];
      Regroup(front, Replace(escaping, s[1..]), rest);
      assert CharReadsBack(escaping, end, c, tail);
      if XmlChar(c) {
        assert ReadChar(front + tail) == Some(Read(c, tail));
      } else {
        assert front + tail == tail;
        assert "" + Allowed(s[1..]) == Allowed(s[1..]);
      }
    }
  }

  // ---------- names and attributes ----------

  lemma {:induction false} NameRoundTrip(name: string, rest: string)
    requires IsName(name) && rest != "" && !NameChar(rest[0])
    ensures ReadName(name + rest) == Some(Read(name, rest))
  {
    NameEnds(name, rest);
    assert (name + rest)[..|name|] == name && (name + rest)[|name|..] == rest;
  }

  lemma {:induction false} NameEnds(name: string, rest: string)
    requires (forall c | c in name :: NameChar(c)) && rest != "" && !NameChar(rest[0])
    ensures NameLength(name + rest) == |name|
  {
    if name == "" {
      assert name + rest == rest;
    } else {
      assert (name + rest)[1..] == name[1..] + rest;
      assert name[0] in name;
      NameEnds(name[1..], rest);
    }
  }

  lemma ExpectFound(prefix: string, rest: string)
    ensures Expect(prefix + rest, prefix) == Some(rest)
  {}

  lemma AttrRoundTrip(a: Attr, rest: string)
    requires IsName(a.key)
    ensures ReadAttr(OneAttr(a) + rest) == Some(Read(Attr(a.key, Allowed(a.value)), rest))
  {
    hide ReadName, ReadChars, Expect, IsName, Allowed;
    var quoted := EscapeAttr(a.value);
    var s3 := "\"" + rest;
    var s2 := quoted + s3;
    var s1 := "=\"" + s2;
    assert OneAttr(a) + rest == " " + (a.key + s1) by {
      Regroup(" " + a.key, "=\"", quoted);
      Regroup(" " + a.key, "=\"" + quoted, "\"");
      Regroup(" ", a.key, "=\"" + quoted + "\"");
      Regroup(" ", a.key + ("=\"" + quoted + "\""), rest);
      Regroup(a.key, "=\"" + quoted + "\"", rest);
      Regroup("=\"" + quoted, "\"", rest);
      Regroup("=\"", quoted, s3);
    }
    ExpectFound(" ", a.key + s1);
    NameRoundTrip(a.key, s1);
    ExpectFound("=\"", s2);
    AttrReadsBack();
    CharsRoundTrip(Escaping(ATTR_PAIRS), a.value, '"', s3);
    assert s3[1..] == rest;
  }

  lemma {:induction false} AttrsRoundTrip(attrs: seq<Attr>, rest: string)
    requires NamedAttrs(attrs) && rest != "" && rest[0] != ' '
    ensures ReadAttrs(Attrs(attrs) + rest) == Some(Read(CleanAttrs(attrs), rest))
  {
    hide ReadAttr, OneAttr, Allowed;
    if attrs == [] {
      assert Attrs(attrs) + rest == rest;
    } else {
      var tail := Attrs(attrs[1..]) + rest;
      assert attrs[0] in attrs;
      AttrsRoundTrip(attrs[1..], rest);
      AttrRoundTrip(attrs[0], tail);
      Regroup(OneAttr(attrs[0]), Attrs(attrs[1..]), rest);
      assert (OneAttr(attrs[0]) + tail)[0] == ' ' by { AttrStart(attrs[0]); }
    }
  }

  lemma AttrStart(a: Attr)
    ensures OneAttr(a) != "" && OneAttr(a)[0] == ' '
  {}

  // ---------- elements ----------

  lemma {:induction false} ElementRoundTrip(t: Tag, rest: string)
    requires Named(t)
    ensures ReadElement(Whole(t) + rest) == Some(Read(Clean(t), rest))
    decreases t, 1
  {
    hide ReadName, ReadAttrs, Expect, IsName, ReadContent, ReadFoot;
    if SelfClosing(t) {
      var tail := "/>" + rest;
      HeadRoundTrip(t, tail);
      Regroup(Head(t), "/>", rest);
      assert tail[2..] == rest;
    } else {
      var content := if t.TextTag? then EscapeText(t.text) else Tags(t.children);
      var inner := content + (Foot(t) + rest);
      var tail := ">" + inner;
      assert Whole(t) + rest == Head(t) + tail by {
        Regroup(Head(t), ">", content);
        Regroup(Head(t), ">" + content, Foot(t));
        Regroup(Head(t), ">" + content + Foot(t), rest);
        Regroup(">" + content, Foot(t), rest);
        Regroup(">", content, Foot(t) + rest);
      }
      HeadRoundTrip(t, tail);
      ExpectFound(">", inner);
      FootRoundTrip(t, rest);
      match t
      case TextTag(_, text, _) => TextRoundTrip(text, Foot(t) + rest);
      case NodeTag(_, children, _) => ChildrenRoundTrip(children, Foot(t) + rest);
    }
  }

  /** The start of any tag reads back, up to the end of its attributes. */
  lemma HeadRoundTrip(t: Tag, tail: string)
    requires IsName(t.name) && NamedAttrs(t.attrs) && tail != "" && (tail[0] == '/' || tail[0] == '>')
    ensures var s := Head(t) + tail;
            && Expect(s, "<") == Some(t.name + (Attrs(t.attrs) + tail))
            && ReadName(t.name + (Attrs(t.attrs) + tail)) == Some(Read(t.name, Attrs(t.attrs) + tail))
            && ReadAttrs(Attrs(t.attrs) + tail) == Some(Read(CleanAttrs(t.attrs), tail))
  {
    hide ReadName, ReadAttrs, Expect, IsName;
    AttrsRoundTrip(t.attrs, tail);
    if t.attrs != [] { AttrStart(t.attrs[0]); }
    NameRoundTrip(t.name, Attrs(t.attrs) + tail);
    Regroup("<", t.name, Attrs(t.attrs));
    Regroup("<", t.name + Attrs(t.attrs), tail);
    Regroup(t.name, Attrs(t.attrs), tail);
    ExpectFound("<", t.name + (Attrs(t.attrs) + tail));
  }

  lemma FootRoundTrip(t: Tag, rest: string)
    ensures ReadFoot(Foot(t) + rest, t.name) == Some(rest)
    ensures "</" <= Foot(t) + rest
  {}

  lemma TextRoundTrip(text: string, foot: string)
    requires "</" <= foot
    ensures ReadContent(EscapeText(text) + foot)
         == Some(Read(if Allowed(text) == "" then Empty else Text(Allowed(text)), foot))
  {
    var s := EscapeText(text) + foot;
    TextReadsBack();
    CharsRoundTrip(Escaping(TEXT_PAIRS), text, '<', foot);
    if Allowed(text) == "" {
      NothingLeft(text);
      assert s == foot;
    } else {
      TextStarts(text);
      assert s[0] != '<';
    }
  }

  lemma {:induction false} NothingLeft(text: string)
    requires Allowed(text) == ""
    ensures EscapeText(text) == ""
  {
    hide Escaping;
    if text != "" {
      EscapingAt(TEXT_PAIRS, text[0]);
      TextPair(text[0]);
      NothingLeft(text[1..]);
    }
  }

  lemma {:induction false} TextStarts(text: string)
    requires Allowed(text) != ""
    ensures EscapeText(text) != "" && EscapeText(text)[0] != '<'
  {
    hide Escaping;
    EscapingAt(TEXT_PAIRS, text[0]);
    TextPair(text[0]);
    if !XmlChar(text[0]) {
      TextStarts(text[1..]);
    }
  }

  lemma ChildrenRoundTrip(children: seq<Tag>, foot: string)
    requires children != [] && (forall child | child in children :: Named(child)) && "</" <= foot
    ensures ReadContent(Tags(children) + foot) == Some(Read(Children(CleanAll(children)), foot))
    decreases children, 1
  {
    ElementsRoundTrip(children, foot);
    TagStarts(children[0]);
    var s := Tags(children) + foot;
    assert children[0] in children;
    assert s[0] == '<' && s[1] != '/';
  }

  /** A tag starts with an angle bracket and a name. */
  lemma TagStarts(t: Tag)
    requires Named(t)
    ensures |Whole(t)| >= 2 && Whole(t)[0] == '<' && NameChar(Whole(t)[1])
  {}

  lemma Differs(prefix: string, s: string, i: nat)
    requires i < |prefix| && i < |s| && prefix[i] != s[i]
    ensures !(prefix <= s)
  {}

  lemma NoFoot(t: Tag, tail: string)
    requires Named(t)
    ensures !("</" <= Whole(t) + tail)
  {
    TagStarts(t);
    var s := Whole(t) + tail;
    assert s[1] == Whole(t)[1];
    Differs("</", s, 1);
  }

  lemma {:induction false} ElementsRoundTrip(tags: seq<Tag>, foot: string)
    requires (forall t | t in tags :: Named(t)) && "</" <= foot
    ensures ReadElements(Tags(tags) + foot) == Some(Read(CleanAll(tags), foot))
    decreases tags, 0
  {
    hide ReadElement, Whole;
    if tags == [] {
      assert Tags(tags) + foot == foot;
    } else {
      assert tags[0] in tags;
      var tail := Tags(tags[1..]) + foot;
      ElementRoundTrip(tags[0], tail);
      ElementsRoundTrip(tags[1..], foot);
      Regroup(Whole(tags[0]), Tags(tags[1..]), foot);
      NoFoot(tags[0], tail);
    }
  }

  // ---------- documents ----------

  lemma InstructionRoundTrip(name: string, attrs: seq<Attr>, rest: string)
    requires NamedAttrs(attrs)
    ensures ReadInstruction(Instruction(name, attrs) + rest, name) == Some(Read(CleanAttrs(attrs), rest))
  {
    hide ReadAttrs, Expect;
    var open := "<?" + name;
    var tail := "?>" + rest;
    AttrsRoundTrip(attrs, tail);
    Regroup(open, Attrs(attrs), "?>");
    Regroup(open, Attrs(attrs) + "?>", rest);
    Regroup(Attrs(attrs), "?>", rest);
    ExpectFound(open, Attrs(attrs) + tail);
    ExpectFound("?>", rest);
  }

  /** Reading the writer's output gives the tree that was written, with the
      characters XML does not allow dropped and the empty forms identified. */
  lemma DocumentRoundTrip(declaration: seq<Attr>, stylesheet: Option<seq<Attr>>, root: Tag)
    requires NamedAttrs(declaration) && (stylesheet.Some? ==> NamedAttrs(stylesheet.value)) && Named(root)
    ensures ReadDocument(Serialized(declaration, stylesheet, root))
         == Some(Document(CleanAttrs(declaration),
                          if stylesheet.Some? then Some(CleanAttrs(stylesheet.value)) else None, Clean(root)))
  {
    hide ReadInstruction, ReadElement, Instruction, Whole;
    assert Whole(root) + "" == Whole(root);
    ElementRoundTrip(root, "");
    var first := Instruction("xml", declaration);
    if stylesheet.Some? {
      var second := Instruction("xml-stylesheet", stylesheet.value);
      Regroup(first, second, Whole(root));
      InstructionRoundTrip("xml", declaration, second + Whole(root));
      InstructionRoundTrip("xml-stylesheet", stylesheet.value, Whole(root));
      InstructionStarts("xml-stylesheet", stylesheet.value, Whole(root));
    } else {
      assert first + "" == first;
      InstructionRoundTrip("xml", declaration, Whole(root));
      NotAnInstruction(root);
    }
  }

  lemma InstructionStarts(name: string, attrs: seq<Attr>, rest: string)
    ensures "<?" + name <= Instruction(name, attrs) + rest
  {}

  lemma NotAnInstruction(t: Tag)
    requires Named(t)
    ensures !("<?xml-stylesheet" <= Whole(t))
  {
    hide Whole;
    TagStarts(t);
    Differs("<?xml-stylesheet", Whole(t), 1);
  }

  // ---------- only characters XML allows ----------

  predicate AllAllowed(s: string) { forall c | c in s :: XmlChar(c) }

  lemma {:induction false} ReplaceAllowed(pairs: seq<Pair>, s: string)
    requires forall c: char :: var r := Replacement(pairs, c);
               AllAllowed(if r.Some? then r.value else [c])
    ensures AllAllowed(Replace(pairs, s))
  {
    if s != "" { ReplaceAllowed(pairs, s[1..]); }
  }

  lemma EscapesAllowed(s: string)
    ensures AllAllowed(EscapeText(s)) && AllAllowed(EscapeAttr(s))
  {
    hide Escaping, Replacement;
    forall c: char
      ensures var r := Replacement(Escaping(TEXT_PAIRS), c);
              AllAllowed(if r.Some? then r.value else [c])
      ensures var r := Replacement(Escaping(ATTR_PAIRS), c);
              AllAllowed(if r.Some? then r.value else [c])
    {
      EscapingAt(TEXT_PAIRS, c);
      EscapingAt(ATTR_PAIRS, c);
      TextPair(c);
      AttrPair(c);
    }
    ReplaceAllowed(Escaping(TEXT_PAIRS), s);
    ReplaceAllowed(Escaping(ATTR_PAIRS), s);
  }

  lemma {:induction false} AttrsAllowed(attrs: seq<Attr>)
    requires NamedAttrs(attrs)
    ensures AllAllowed(Attrs(attrs))
  {
    if attrs != [] {
      assert attrs[0] in attrs;
      EscapesAllowed(attrs[0].value);
      AttrsAllowed(attrs[1..]);
    }
  }

  lemma {:induction false} TagAllowed(t: Tag)
    requires Named(t)
    ensures AllAllowed(Whole(t))
    decreases t, 1
  {
    hide Attrs, Tags, EscapeText, NamedAttrs;
    AttrsAllowed(t.attrs);
    match t
    case TextTag(_, text, _) => EscapesAllowed(text);
    case NodeTag(_, children, _) => TagsAllowed(children);
  }

  lemma {:induction false} TagsAllowed(tags: seq<Tag>)
    requires forall t | t in tags :: Named(t)
    ensures AllAllowed(Tags(tags))
    decreases tags, 0
  {
    if tags != [] {
      assert tags[0] in tags;
      TagAllowed(tags[0]);
      TagsAllowed(tags[1..]);
    }
  }

  lemma InstructionAllowed(name: string, attrs: seq<Attr>)
    requires NamedAttrs(attrs) && AllAllowed(name)
    ensures AllAllowed(Instruction(name, attrs))
  {
    hide Attrs;
    AttrsAllowed(attrs);
  }

  /** Whatever NRK's texts hold, the whole output is made of characters XML
      allows. */
  lemma OutputAllowed(declaration: seq<Attr>, stylesheet: Option<seq<Attr>>, root: Tag)
    requires NamedAttrs(declaration) && (stylesheet.Some? ==> NamedAttrs(stylesheet.value)) && Named(root)
    ensures AllAllowed(Serialized(declaration, stylesheet, root))
  {
    hide Instruction, Whole, NamedAttrs;
    InstructionAllowed("xml", declaration);
    if stylesheet.Some? { InstructionAllowed("xml-stylesheet", stylesheet.value); }
    TagAllowed(root);
  }
}
