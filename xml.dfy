/**
 * The XML reader's events, as the equation code sees them: start tags with
 * their attributes, end tags, self-closing tags and (already unescaped)
 * text, ending where the reader reports the end of the document. The
 * equation code re-serialises the events it collects; the forms it writes
 * are defined here once.
 */
module Xml {
  import opened Strings

  datatype Attribute = Attribute(key: string, value: string)

  datatype Event =
    | Start(name: string, attributes: seq<Attribute>)
    | End(name: string)
    | Empty(name: string, attributes: seq<Attribute>)
    | Text(text: string)

  /** ` key="value"` for every attribute, in order. */
  function AttributesText(attributes: seq<Attribute>): string
  {
    if attributes == [] then ""
    else
      var a := attributes[|attributes| - 1];
      AttributesText(attributes[..|attributes| - 1]) + " " + a.key + "=\"" + a.value + "\""
  }

  /** `<name key="value" ...>`. */
  function OpenTag(name: string, attributes: seq<Attribute>): (r: string)
    ensures StartsWith(r, "<" + name) && EndsWith(r, ">")
  {
    "<" + name + AttributesText(attributes) + ">"
  }

  /** `</name>`. */
  function CloseTag(name: string): string
  {
    "</" + name + ">"
  }

  /** `<name key="value" .../>`. */
  function EmptyTag(name: string, attributes: seq<Attribute>): (r: string)
    ensures StartsWith(r, "<" + name) && EndsWith(r, "/>")
  {
    "<" + name + AttributesText(attributes) + "/>"
  }

  /** The markup an event is written back as. */
  function Serialised(e: Event): string
  {
    match e
    case Start(name, attributes) => OpenTag(name, attributes)
    case End(name) => CloseTag(name)
    case Empty(name, attributes) => EmptyTag(name, attributes)
    case Text(text) => text
  }

  /** The markup of a sequence of events, written back one after the other. */
  function SerialisedAll(events: seq<Event>): string
  {
    if events == [] then ""
    else SerialisedAll(events[..|events| - 1]) + Serialised(events[|events| - 1])
  }

  lemma SerialisedAllSnoc(events: seq<Event>, e: Event)
    ensures SerialisedAll(events + [e]) == SerialisedAll(events) + Serialised(e)
  {
    assert (events + [e])[..|events|] == events;
  }

  /** The number of start tags called `name` among the events. */
  function CountStarts(events: seq<Event>, name: string): nat
  {
    if events == [] then 0
    else
      var e := events[|events| - 1];
      CountStarts(events[..|events| - 1], name) + (if e.Start? && e.name == name then 1 else 0)
  }

  /** The number of end tags called `name` among the events. */
  function CountEnds(events: seq<Event>, name: string): nat
  {
    if events == [] then 0
    else CountEnds(events[..|events| - 1], name) + (if events[|events| - 1] == End(name) then 1 else 0)
  }

  lemma CountStartsSnoc(events: seq<Event>, e: Event, name: string)
    ensures CountStarts(events + [e], name) == CountStarts(events, name) + (if e.Start? && e.name == name then 1 else 0)
  {
    assert (events + [e])[..|events|] == events;
  }

  lemma CountEndsSnoc(events: seq<Event>, e: Event, name: string)
    ensures CountEnds(events + [e], name) == CountEnds(events, name) + (if e == End(name) then 1 else 0)
  {
    assert (events + [e])[..|events|] == events;
  }

  // ---------------------------------------------------------------------------
  // A reader that trims text
  // ---------------------------------------------------------------------------

  /** The white space an XML reader trims: space, tab, carriage return and
      line feed. */
  predicate IsXmlSpace(c: char)
  {
    c == ' ' || c == '\t' || c == '\r' || c == '\n'
  }

  /** The text without its leading XML white space. */
  function XmlTrimStart(s: string): (r: string)
    ensures |r| <= |s| && r == s[|s| - |r|..]
    ensures r == [] || !IsXmlSpace(r[0])
  {
    if s != [] && IsXmlSpace(s[0]) then XmlTrimStart(s[1..]) else s
  }

  /** The text without its trailing XML white space. */
  function XmlTrimEnd(s: string): (r: string)
    ensures |r| <= |s| && r == s[..|r|]
    ensures r == [] || !IsXmlSpace(r[|r| - 1])
  {
    if s != [] && IsXmlSpace(s[|s| - 1]) then XmlTrimEnd(s[..|s| - 1]) else s
  }

  /** The text without XML white space at either end. */
  function XmlTrim(s: string): (r: string)
    ensures r == [] || (!IsXmlSpace(r[0]) && !IsXmlSpace(r[|r| - 1]))
  {
    XmlTrimEnd(XmlTrimStart(s))
  }

  /** What a reader that trims text reports for one event: a text loses the
      white space at both ends and is not reported when nothing remains; a
      markup event is reported as it is. */
  function TrimmedEvent(e: Event): (r: seq<Event>)
    ensures |r| <= 1
  {
    if !e.Text? then [e] else if XmlTrim(e.text) == [] then [] else [Text(XmlTrim(e.text))]
  }

  /** The events a reader reports when it trims text. */
  function TrimText(events: seq<Event>): (r: seq<Event>)
    ensures |r| <= |events|
  {
    if events == [] then [] else TrimmedEvent(events[0]) + TrimText(events[1..])
  }

  /** The markup events of a sequence, its text left out. */
  function Markup(events: seq<Event>): seq<Event>
  {
    if events == [] then []
    else (if events[0].Text? then [] else [events[0]]) + Markup(events[1..])
  }

  /** Every text a trimming reader reports is non-empty and has no white
      space at either end. */
  predicate TrimmedTexts(events: seq<Event>)
  {
    forall i :: 0 <= i < |events| && events[i].Text? ==>
      events[i].text != [] && XmlTrim(events[i].text) == events[i].text
  }

  lemma XmlTrimClean(s: string)
    requires s == [] || (!IsXmlSpace(s[0]) && !IsXmlSpace(s[|s| - 1]))
    ensures XmlTrim(s) == s
  {
  }

  lemma TrimmedTextsCons(head: seq<Event>, events: seq<Event>)
    requires TrimmedTexts(head) && TrimmedTexts(events)
    ensures TrimmedTexts(head + events)
  {
    forall i | 0 <= i < |head + events| && (head + events)[i].Text?
      ensures (head + events)[i].text != [] && XmlTrim((head + events)[i].text) == (head + events)[i].text
    {
      if i < |head| {
        assert (head + events)[i] == head[i];
      } else {
        assert (head + events)[i] == events[i - |head|];
      }
    }
  }

  lemma MarkupCons(head: seq<Event>, events: seq<Event>)
    requires |head| <= 1
    ensures Markup(head + events) == Markup(head) + Markup(events)
  {
    if head == [] {
      assert head + events == events;
    } else {
      assert (head + events)[1..] == events;
      assert head[1..] == [];
    }
  }

  /** Trimming keeps the markup events and their order, and every text it
      reports is non-empty and trimmed. */
  lemma {:induction false} TrimTextShape(events: seq<Event>)
    ensures Markup(TrimText(events)) == Markup(events)
    ensures TrimmedTexts(TrimText(events))
    decreases |events|
  {
    if events != [] {
      var e := events[0];
      TrimTextShape(events[1..]);
      var head := TrimmedEvent(e);
      if head != [] && head[0].Text? {
        XmlTrimClean(XmlTrim(e.text));
      }
      TrimmedTextsCons(head, TrimText(events[1..]));
      MarkupCons(head, TrimText(events[1..]));
    }
  }

  /** Events a trimming reader reports are reported again unchanged. */
  lemma TrimTextIdempotent(events: seq<Event>)
    ensures TrimText(TrimText(events)) == TrimText(events)
  {
    TrimTextShape(events);
    TrimmedFixed(TrimText(events));
  }

  lemma {:induction false} TrimmedFixed(events: seq<Event>)
    requires TrimmedTexts(events)
    ensures TrimText(events) == events
    decreases |events|
  {
    if events != [] {
      var rest := events[1..];
      assert TrimmedTexts(rest) by {
        forall i | 0 <= i < |rest| && rest[i].Text?
          ensures rest[i].text != [] && XmlTrim(rest[i].text) == rest[i].text
        {
          assert rest[i] == events[i + 1];
        }
      }
      TrimmedFixed(rest);
      assert TrimmedEvent(events[0]) == [events[0]];
      assert events == [events[0]] + rest;
    }
  }

  /** Trailing space in a text is lost: `<m:t>x </m:t>` is reported as
      `<m:t>x</m:t>`. */
  lemma TrimTextTrailingSpace(name: string, c: char)
    requires !IsXmlSpace(c)
    ensures TrimText([Start(name, []), Text([c, ' ']), End(name)]) == [Start(name, []), Text([c]), End(name)]
  {
    assert [c, ' '][..1] == [c];
    assert XmlTrimEnd([c, ' ']) == [c];
    assert TrimmedEvent(Text([c, ' '])) == [Text([c])];
    ThreeEvents(Start(name, []), Text([c, ' ']), End(name));
  }

  lemma {:induction false} BlankTrimmed(s: string)
    requires forall k :: 0 <= k < |s| ==> IsXmlSpace(s[k])
    ensures XmlTrimStart(s) == [] && XmlTrim(s) == []
  {
    if s != [] {
      BlankTrimmed(s[1..]);
    }
  }

  /** A text of white space only is not reported. */
  lemma TrimTextDropsBlank(name: string, t: string)
    requires forall k :: 0 <= k < |t| ==> IsXmlSpace(t[k])
    ensures TrimText([Start(name, []), Text(t), End(name)]) == [Start(name, []), End(name)]
  {
    BlankTrimmed(t);
    assert TrimmedEvent(Text(t)) == [];
    ThreeEvents(Start(name, []), Text(t), End(name));
  }

  lemma TrimTextCons(e: Event, rest: seq<Event>)
    ensures TrimText([e] + rest) == TrimmedEvent(e) + TrimText(rest)
  {
    assert ([e] + rest)[0] == e && ([e] + rest)[1..] == rest;
  }

  lemma OneEvent(e: Event)
    ensures TrimText([e]) == TrimmedEvent(e)
  {
    TrimTextCons(e, []);
    assert [e] + [] == [e];
  }

  lemma TwoEvents(e1: Event, e2: Event)
    ensures TrimText([e1, e2]) == TrimmedEvent(e1) + TrimmedEvent(e2)
  {
    OneEvent(e2);
    TrimTextCons(e1, [e2]);
    assert [e1] + [e2] == [e1, e2];
  }

  lemma ThreeEvents(e0: Event, e1: Event, e2: Event)
    ensures TrimText([e0, e1, e2]) == TrimmedEvent(e0) + (TrimmedEvent(e1) + TrimmedEvent(e2))
  {
    TwoEvents(e1, e2);
    TrimTextCons(e0, [e1, e2]);
    assert [e0] + [e1, e2] == [e0, e1, e2];
  }
}
