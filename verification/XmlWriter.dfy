/** The minimal XML writer (internal/feed/xml.go). */
module XmlWriter {
  import opened Wrappers

  datatype Attr = Attr(key: string, value: string)

  /** A text tag, or a node with children. */
  datatype Tag =
    | TextTag(name: string, text: string, attrs: seq<Attr>)
    | NodeTag(name: string, children: seq<Tag>, attrs: seq<Attr>)

  // ---------- escaping ----------

  /** A character and what stands for it; the first match counts, as in strings.NewReplacer. */
  datatype Pair = Pair(plain: char, entity: string)

  const TEXT_PAIRS := [Pair('&', "&amp;"), Pair('<', "&lt;"), Pair('>', "&gt;")]
  const ATTR_PAIRS := TEXT_PAIRS + [Pair('"', "&quot;"), Pair('\'', "&apos;")]

  function Replacement(pairs: seq<Pair>, c: char): Option<string> {
    if pairs == [] then None
    else if pairs[0].plain == c then Some(pairs[0].entity)
    else Replacement(pairs[1..], c)
  }

  function Replace(pairs: seq<Pair>, s: string): string {
    if s == "" then ""
    else (var r := Replacement(pairs, s[0]); if r.Some? then r.value else [s[0]]) + Replace(pairs, s[1..])
  }

  /** Production Char of XML 1.0, section 2.2. */
  predicate XmlChar(c: char) {
    var n := c as int;
    n == 0x9 || n == 0xA || n == 0xD || 0x20 <= n <= 0xD7FF || 0xE000 <= n <= 0xFFFD || 0x10000 <= n <= 0x10FFFF
  }

  function Controls(n: nat): seq<Pair>
    requires n <= 0x20
  {
    if n == 0 then []
    else
      var c := (n - 1) as char;
      Controls(n - 1) + (if c == '\t' || c == '\n' || c == '\r' then [] else [Pair(c, "")])
  }

  const NONCHARACTERS := [Pair('\U{FFFE}', ""), Pair('\U{FFFF}', "")]

  function Escaping(pairs: seq<Pair>): seq<Pair> { pairs + Controls(0x20) + NONCHARACTERS }

  /** Adds the removal of what XML does not allow to the given replacements. */
  method Escaper(pairs: seq<Pair>) returns (all: seq<Pair>)
    ensures all == Escaping(pairs)
  {
    all := pairs;
    for n := 0 to 0x20
      invariant all == pairs + Controls(n)
    {
      var c := n as char;
      if c != '\t' && c != '\n' && c != '\r' {
        all := all + [Pair(c, "")];
      }
    }
    all := all + NONCHARACTERS;
  }

  function EscapeText(s: string): string { Replace(Escaping(TEXT_PAIRS), s) }

  function EscapeAttr(s: string): string { Replace(Escaping(ATTR_PAIRS), s) }

  // ---------- writing ----------

  function OneAttr(a: Attr): string { " " + a.key + "=\"" + EscapeAttr(a.value) + "\"" }

  function Attrs(attrs: seq<Attr>): string {
    if attrs == [] then "" else OneAttr(attrs[0]) + Attrs(attrs[1..])
  }

  function Tags(tags: seq<Tag>): string {
    if tags == [] then "" else Whole(tags[0]) + Tags(tags[1..])
  }

  function Head(t: Tag): string { "<" + t.name + Attrs(t.attrs) }

  function Foot(t: Tag): string { "</" + t.name + ">" }

  /** Nothing to put between a start tag and an end tag. */
  predicate SelfClosing(t: Tag) {
    match t
    case TextTag(_, text, _) => text == ""
    case NodeTag(_, children, _) => children == []
  }

  function Whole(t: Tag): string {
    if SelfClosing(t) then Head(t) + "/>"
    else Head(t) + ">" + (if t.TextTag? then EscapeText(t.text) else Tags(t.children)) + Foot(t)
  }

  function Instruction(name: string, attrs: seq<Attr>): string { "<?" + name + Attrs(attrs) + "?>" }

  function Serialized(declaration: seq<Attr>, stylesheet: Option<seq<Attr>>, root: Tag): string {
    Instruction("xml", declaration)
    + (if stylesheet.Some? then Instruction("xml-stylesheet", stylesheet.value) else "")
    + Whole(root)
  }

  lemma Regroup(a: string, b: string, c: string)
    ensures a + b + c == a + (b + c)
  {}

  lemma {:induction false} AttrsAppend(attrs: seq<Attr>, a: Attr)
    ensures Attrs(attrs + [a]) == Attrs(attrs) + OneAttr(a)
  {
    if attrs == [] {
      assert attrs + [a] == [a];
    } else {
      assert (attrs + [a])[1..] == attrs[1..] + [a];
      AttrsAppend(attrs[1..], a);
    }
  }

  lemma {:induction false} TagsAppend(tags: seq<Tag>, t: Tag)
    ensures Tags(tags + [t]) == Tags(tags) + Whole(t)
  {
    if tags == [] {
      assert tags + [t] == [t];
    } else {
      assert (tags + [t])[1..] == tags[1..] + [t];
      TagsAppend(tags[1..], t);
    }
  }

  /** A string builder: tags are streamed straight into it. */
  class Builder {
    var out: string

    constructor ()
      ensures out == ""
    {
      out := "";
    }

    method WriteString(s: string)
      modifies this
      ensures out == old(out) + s
    {
      out := out + s;
    }

    method WriteAttr(a: Attr)
      modifies this
      ensures out == old(out) + OneAttr(a)
    {
      WriteString(" ");
      WriteString(a.key);
      WriteString("=\"");
      WriteString(EscapeAttr(a.value));
      WriteString("\"");
      var k, q, v := a.key, "=\"", EscapeAttr(a.value);
      Regroup(old(out), " ", k);
      Regroup(old(out), " " + k, q);
      Regroup(old(out), " " + k + q, v);
      Regroup(old(out), " " + k + q + v, "\"");
    }

    method WriteAttrs(attrs: seq<Attr>)
      modifies this
      ensures out == old(out) + Attrs(attrs)
    {
      hide OneAttr;
      for i := 0 to |attrs|
        invariant out == old(out) + Attrs(attrs[..i])
      {
        assert attrs[..i + 1] == attrs[..i] + [attrs[i]];
        AttrsAppend(attrs[..i], attrs[i]);
        WriteAttr(attrs[i]);
        Regroup(old(out), Attrs(attrs[..i]), OneAttr(attrs[i]));
      }
      assert attrs[..|attrs|] == attrs;
    }

    method WriteHead(t: Tag)
      modifies this
      ensures out == old(out) + Head(t)
    {
      hide Attrs;
      WriteString("<");
      WriteString(t.name);
      WriteAttrs(t.attrs);
      Regroup(old(out), "<", t.name);
      Regroup(old(out), "<" + t.name, Attrs(t.attrs));
    }

    method WriteFoot(t: Tag)
      modifies this
      ensures out == old(out) + Foot(t)
    {
      WriteString("</");
      WriteString(t.name);
      WriteString(">");
      Regroup(old(out), "</", t.name);
      Regroup(old(out), "</" + t.name, ">");
    }

    method WriteTags(tags: seq<Tag>)
      modifies this
      ensures out == old(out) + Tags(tags)
      decreases tags, 0
    {
      hide Whole;
      for i := 0 to |tags|
        invariant out == old(out) + Tags(tags[..i])
      {
        assert tags[..i + 1] == tags[..i] + [tags[i]];
        TagsAppend(tags[..i], tags[i]);
        WriteTag(tags[i]);
        Regroup(old(out), Tags(tags[..i]), Whole(tags[i]));
      }
      assert tags[..|tags|] == tags;
    }

    method WriteTag(t: Tag)
      modifies this
      ensures out == old(out) + Whole(t)
      decreases t, 1
    {
      WriteHead(t);
      if SelfClosing(t) {
        WriteString("/>");
        Regroup(old(out), Head(t), "/>");
        return;
      }
      WriteString(">");
      ghost var content: string;
      match t {
        case TextTag(_, text, _) =>
          WriteString(EscapeText(text));
          content := EscapeText(text);
        case NodeTag(_, children, _) =>
          WriteTags(children);
          content := Tags(children);
      }
      WriteFoot(t);
      Regroup(old(out), Head(t), ">");
      Regroup(old(out), Head(t) + ">", content);
      Regroup(old(out), Head(t) + ">" + content, Foot(t));
    }

    method WriteInstruction(name: string, attrs: seq<Attr>)
      modifies this
      ensures out == old(out) + Instruction(name, attrs)
    {
      WriteString("<?");
      WriteString(name);
      WriteAttrs(attrs);
      WriteString("?>");
      Regroup(old(out), "<?", name);
      Regroup(old(out), "<?" + name, Attrs(attrs));
      Regroup(old(out), "<?" + name + Attrs(attrs), "?>");
    }
  }

  /** A whole document. */
  method Serialize(declaration: seq<Attr>, stylesheet: Option<seq<Attr>>, root: Tag) returns (xml: string)
    ensures xml == Serialized(declaration, stylesheet, root)
  {
    hide Instruction, Whole;
    var b := new Builder();
    b.WriteInstruction("xml", declaration);
    if stylesheet.Some? {
      b.WriteInstruction("xml-stylesheet", stylesheet.value);
    }
    b.WriteTag(root);
    xml := b.out;
    assert "" + Instruction("xml", declaration) == Instruction("xml", declaration);
  }
}
