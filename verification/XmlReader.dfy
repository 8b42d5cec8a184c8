/** A small strict XML reader, as an independent account of what the writer's
    output means (sections 2.2, 2.4 and 3.1 of XML 1.0). It normalises neither
    line ends nor attribute values. */
module XmlReader {
  import opened Wrappers
  import opened XmlWriter

  datatype Content = Empty | Text(text: string) | Children(elements: seq<Element>)

  datatype Element = Element(name: string, attrs: seq<Attr>, content: Content)

  datatype Document = Document(declaration: seq<Attr>, stylesheet: Option<seq<Attr>>, root: Element)

  /** A value read from the front of the input, and the rest. */
  datatype Read<+T> = Read(value: T, rest: string)

  /** A subset of the characters a name cannot hold is enough to end it. */
  predicate NameChar(c: char) { XmlChar(c) && c !in " \t\n\r<>/=\"'&?!" }

  function Expect(s: string, prefix: string): (r: Option<string>)
    ensures r.Some? ==> |r.value| == |s| - |prefix|
  {
    if prefix <= s then Some(s[|prefix|..]) else None
  }

  function NameLength(s: string): (n: nat)
    ensures n <= |s|
  {
    if s == "" || !NameChar(s[0]) then 0 else 1 + NameLength(s[1..])
  }

  function ReadName(s: string): (r: Option<Read<string>>)
    ensures r.Some? ==> |r.value.rest| < |s|
  {
    var n := NameLength(s);
    if n == 0 then None else Some(Read(s[..n], s[n..]))
  }

  const ENTITIES := [("&amp;", '&'), ("&lt;", '<'), ("&gt;", '>'), ("&quot;", '"'), ("&apos;", '\'')]

  /** The entity reference in front, among the given ones. */
  function ReadEntity(s: string, entities: seq<(string, char)>): (r: Option<Read<char>>)
    requires forall e | e in entities :: e.0 != ""
    ensures r.Some? ==> |r.value.rest| < |s|
  {
    if entities == [] then None
    else if entities[0].0 <= s then
      assert entities[0] in entities;
      Some(Read(entities[0].1, s[|entities[0].0|..]))
    else ReadEntity(s, entities[1..])
  }

  /** One character of text or of an attribute value. */
  function ReadChar(s: string): (r: Option<Read<char>>)
    requires s != ""
    ensures r.Some? ==> |r.value.rest| < |s|
  {
    if s[0] == '&' then ReadEntity(s, ENTITIES)
    else if s[0] == '<' || !XmlChar(s[0]) then None
    else Some(Read(s[0], s[1..]))
  }

  /** Characters up to, and not including, the end character. */
  function ReadChars(s: string, end: char): (r: Option<Read<string>>)
    ensures r.Some? ==> |r.value.rest| <= |s| && r.value.rest != "" && r.value.rest[0] == end
    decreases |s|
  {
    if s == "" then None
    else if s[0] == end then Some(Read("", s))
    else
      var c :- ReadChar(s);
      var more :- ReadChars(c.rest, end);
      Some(Read([c.value] + more.value, more.rest))
  }

  function ReadAttr(s: string): (r: Option<Read<Attr>>)
    ensures r.Some? ==> |r.value.rest| < |s|
  {
    var s1 :- Expect(s, " ");
    var key :- ReadName(s1);
    var s2 :- Expect(key.rest, "=\"");
    var value :- ReadChars(s2, '"');
    Some(Read(Attr(key.value, value.value), value.rest[1..]))
  }

  function ReadAttrs(s: string): (r: Option<Read<seq<Attr>>>)
    ensures r.Some? ==> |r.value.rest| <= |s|
    decreases |s|
  {
    if s == "" || s[0] != ' ' then Some(Read([], s))
    else
      var a :- ReadAttr(s);
      var more :- ReadAttrs(a.rest);
      Some(Read([a.value] + more.value, more.rest))
  }

  function ReadFoot(s: string, name: string): (r: Option<string>)
    ensures r.Some? ==> |r.value| < |s|
  {
    Expect(s, "</" + name + ">")
  }

  function ReadElement(s: string): (r: Option<Read<Element>>)
    ensures r.Some? ==> |r.value.rest| < |s|
    decreases |s|, 0
  {
    var s1 :- Expect(s, "<");
    var name :- ReadName(s1);
    var attrs :- ReadAttrs(name.rest);
    if "/>" <= attrs.rest then Some(Read(Element(name.value, attrs.value, Empty), attrs.rest[2..]))
    else
      var s2 :- Expect(attrs.rest, ">");
      var content :- ReadContent(s2);
      var rest :- ReadFoot(content.rest, name.value);
      Some(Read(Element(name.value, attrs.value, content.value), rest))
  }

  /** What stands between a start tag and its end tag. */
  function ReadContent(s: string): (r: Option<Read<Content>>)
    ensures r.Some? ==> |r.value.rest| <= |s|
    decreases |s|, 2
  {
    if "</" <= s then Some(Read(Empty, s))
    else if "<" <= s then
      var elements :- ReadElements(s);
      Some(Read(Children(elements.value), elements.rest))
    else
      var text :- ReadChars(s, '<');
      Some(Read(Text(text.value), text.rest))
  }

  function ReadElements(s: string): (r: Option<Read<seq<Element>>>)
    ensures r.Some? ==> |r.value.rest| <= |s|
    decreases |s|, 1
  {
    if "</" <= s then Some(Read([], s))
    else
      var first :- ReadElement(s);
      var more :- ReadElements(first.rest);
      Some(Read([first.value] + more.value, more.rest))
  }

  function ReadInstruction(s: string, name: string): (r: Option<Read<seq<Attr>>>)
    ensures r.Some? ==> |r.value.rest| < |s|
  {
    var s1 :- Expect(s, "<?" + name);
    var attrs :- ReadAttrs(s1);
    var rest :- Expect(attrs.rest, "?>");
    Some(Read(attrs.value, rest))
  }

  function ReadDocument(s: string): Option<Document> {
    var declaration :- ReadInstruction(s, "xml");
    if "<?xml-stylesheet" <= declaration.rest then
      var stylesheet :- ReadInstruction(declaration.rest, "xml-stylesheet");
      var root :- ReadElement(stylesheet.rest);
      if root.rest == "" then Some(Document(declaration.value, Some(stylesheet.value), root.value)) else None
    else
      var root :- ReadElement(declaration.rest);
      if root.rest == "" then Some(Document(declaration.value, None, root.value)) else None
  }
}
