/** Handlebars-style templates: literal text interleaved with `{{key}}`
    slots that are filled from a map of values. A key with no value renders
    as the empty string, as Handlebars does outside strict mode. Escaping of
    the inserted values is not modelled here: callers insert only strings
    that `Text.HtmlSafe` admits, which Handlebars leaves as they are. */
module Templates {

  datatype Segment = Lit(text: string) | Slot(key: string)

  type Template = seq<Segment>

  function Fill(seg: Segment, values: map<string, string>): (r: string)
    ensures seg.Lit? ==> r == seg.text
    ensures seg.Slot? && seg.key in values ==> r == values[seg.key]
    ensures seg.Slot? && seg.key !in values ==> r == []
  {
    match seg
    case Lit(text) => text
    case Slot(key) => if key in values then values[key] else []
  }

  function Render(t: Template, values: map<string, string>): string
  {
    if t == [] then [] else Fill(t[0], values) + Render(t[1..], values)
  }

  /** Rendering a segment put in front of a template. */
  lemma RenderCons(seg: Segment, rest: Template, values: map<string, string>)
    ensures Render([seg] + rest, values) == Fill(seg, values) + Render(rest, values)
  {
    assert ([seg] + rest)[0] == seg;
    assert ([seg] + rest)[1..] == rest;
  }

  /** Rendering a literal and a filled slot put in front of a template. */
  lemma RenderLitSlot(l: string, k: string, rest: Template, values: map<string, string>)
    requires k in values
    ensures Render([Lit(l), Slot(k)] + rest, values) == l + (values[k] + Render(rest, values))
  {
    var tail := [Slot(k)] + rest;
    RenderCons(Slot(k), rest, values);
    assert [Lit(l), Slot(k)] + rest == [Lit(l)] + tail;
    RenderCons(Lit(l), tail, values);
  }

  /** A template of one literal renders as that literal. */
  lemma RenderLit(l: string, values: map<string, string>)
    ensures Render([Lit(l)], values) == l
  {
    RenderCons(Lit(l), [], values);
    assert [Lit(l)] + [] == [Lit(l)];
  }

  /** A template of five literals around four slots renders as the literals
      with the four values between them. */
  lemma RenderFourSlots(l0: string, k0: string, l1: string, k1: string, l2: string,
                        k2: string, l3: string, k3: string, l4: string, values: map<string, string>)
    requires k0 in values && k1 in values && k2 in values && k3 in values
    ensures Render([Lit(l0), Slot(k0), Lit(l1), Slot(k1), Lit(l2), Slot(k2), Lit(l3), Slot(k3), Lit(l4)], values)
         == l0 + (values[k0] + (l1 + (values[k1] + (l2 + (values[k2] + (l3 + (values[k3] + l4)))))))
  {
    var t4: Template := [Lit(l4)];
    RenderLit(l4, values);
    var t3 := [Lit(l3), Slot(k3)] + t4;
    RenderLitSlot(l3, k3, t4, values);
    var t2 := [Lit(l2), Slot(k2)] + t3;
    RenderLitSlot(l2, k2, t3, values);
    var t1 := [Lit(l1), Slot(k1)] + t2;
    RenderLitSlot(l1, k1, t2, values);
    var t0 := [Lit(l0), Slot(k0)] + t1;
    RenderLitSlot(l0, k0, t1, values);
    assert t0 == [Lit(l0), Slot(k0), Lit(l1), Slot(k1), Lit(l2), Slot(k2), Lit(l3), Slot(k3), Lit(l4)];
  }

  /** A template of three literals around two slots renders as the literals
      with the two values between them. */
  lemma RenderTwoSlots(l0: string, k0: string, l1: string, k1: string, l2: string, values: map<string, string>)
    requires k0 in values && k1 in values
    ensures Render([Lit(l0), Slot(k0), Lit(l1), Slot(k1), Lit(l2)], values)
         == l0 + (values[k0] + (l1 + (values[k1] + l2)))
  {
    var t2: Template := [Lit(l2)];
    RenderLit(l2, values);
    var t1 := [Lit(l1), Slot(k1)] + t2;
    RenderLitSlot(l1, k1, t2, values);
    var t0 := [Lit(l0), Slot(k0)] + t1;
    RenderLitSlot(l0, k0, t1, values);
    assert t0 == [Lit(l0), Slot(k0), Lit(l1), Slot(k1), Lit(l2)];
  }
}
