/** `Mapsheet.Point`: one spreadsheet row turned into a queryable entity with
    derived coordinates, case-folded field lookup, a title and popup content. */
module Points {
  import opened Wrappers
  import opened Text

  /** A spreadsheet row: normalised column name to cell text. */
  type Row = map<string, string>

  /** A popup function or a compiled popup template: row to HTML. */
  type Renderer = Row -> string

  /** `parseFloat`, left uninterpreted: None stands for NaN. */
  type Parser = string -> Option<real>

  datatype Point = Point(
    model: Row,
    fields: Option<seq<string>>,
    popupContent: Option<Renderer>,
    popupTemplate: Option<Renderer>,
    titleColumn: Option<string>,
    markerOptions: map<string, string>)

  /** `parseFloat` of a string-or-undefined: `parseFloat(undefined)` is NaN. */
  function ParseFloat(parse: Parser, v: Option<string>): (r: Option<real>)
    ensures v.None? ==> r.None?
    ensures v.Some? ==> r == parse(v.value)
  {
    if v.Some? then parse(v.value) else None
  }

  /** The key `get` looks up: lower-cased, first run of spaces removed. */
  function NormalizeField(name: string): (key: string)
    ensures |key| <= |name|
  {
    RemoveFirstSpaceRun(ToLower(name))
  }

  /** `get(fieldName)`. */
  function Get(p: Point, fieldName: Option<string>): (r: Option<string>)
    ensures fieldName.None? ==> r.None?
    ensures fieldName.Some? ==>
      (r.Some? <==> NormalizeField(fieldName.value) in p.model) &&
      (r.Some? ==> r.value == p.model[NormalizeField(fieldName.value)])
  {
    if fieldName.None? then None else Lookup(p.model, NormalizeField(fieldName.value))
  }

  /** Upper and lower case name the same column: "Icon URL", "icon url" and
      "ICON URL" all read the row's `iconurl`. */
  lemma GetIgnoresCase(p: Point, name: string)
    ensures Get(p, Some(name)) == Get(p, Some(ToLower(name)))
  {
    ToLowerIdempotent(name);
  }

  lemma GetIconUrl(p: Point)
    ensures Get(p, Some("Icon URL")) == Get(p, Some("icon url")) == Lookup(p.model, "iconurl")
  {
    LowerIconUrl();
    RemoveFirstSpaceRunSplits("icon", " ", "url");
    IconUrlPieces();
  }

  lemma IconUrlPieces()
    ensures "icon" + " " + "url" == "icon url"
    ensures "icon" + "url" == "iconurl"
  {
  }

  lemma LowerIconUrl()
    ensures ToLower("Icon URL") == "icon url"
    ensures ToLower("icon url") == "icon url"
  {
    var r := ToLower("Icon URL");
    assert r[0] == 'i' && r[1] == 'c' && r[2] == 'o' && r[3] == 'n';
    assert r[4] == ' ' && r[5] == 'u' && r[6] == 'r' && r[7] == 'l';
    var r' := ToLower("icon url");
    assert r'[0] == 'i' && r'[1] == 'c' && r'[2] == 'o' && r'[3] == 'n';
    assert r'[4] == ' ' && r'[5] == 'u' && r'[6] == 'r' && r'[7] == 'l';
  }

  /** A key that is already lower case and space-free is looked up as is. */
  lemma GetNormalizedKey(p: Point, key: string)
    requires ' ' !in key
    requires forall i :: 0 <= i < |key| ==> !IsUpper(key[i])
    ensures Get(p, Some(key)) == Lookup(p.model, key)
  {
    assert ToLower(key) == key;
  }

  /** `latitude()`: `parseFloat(model.latitude || model.lat)`. */
  function Latitude(p: Point, parse: Parser): (r: Option<real>)
    ensures Truthy(Lookup(p.model, "latitude")) ==> r == parse(p.model["latitude"])
    ensures !Truthy(Lookup(p.model, "latitude")) ==>
      r == (if "lat" in p.model then parse(p.model["lat"]) else None)
  {
    ParseFloat(parse, Or(Lookup(p.model, "latitude"), Lookup(p.model, "lat")))
  }

  /** `longitude()`: `parseFloat(model.longitude || model.lng || model.long)`. */
  function Longitude(p: Point, parse: Parser): (r: Option<real>)
    ensures Truthy(Lookup(p.model, "longitude")) ==> r == parse(p.model["longitude"])
    ensures !Truthy(Lookup(p.model, "longitude")) && Truthy(Lookup(p.model, "lng")) ==>
      r == parse(p.model["lng"])
    ensures !Truthy(Lookup(p.model, "longitude")) && !Truthy(Lookup(p.model, "lng")) ==>
      r == (if "long" in p.model then parse(p.model["long"]) else None)
  {
    ParseFloat(parse, Or(Or(Lookup(p.model, "longitude"), Lookup(p.model, "lng")), Lookup(p.model, "long")))
  }

  /** `coords()`: latitude first, longitude second. */
  function Coords(p: Point, parse: Parser): (r: (Option<real>, Option<real>))
    ensures r.0 == Latitude(p, parse) && r.1 == Longitude(p, parse)
  {
    (Latitude(p, parse), Longitude(p, parse))
  }

  /** `isValid()`: neither coordinate is NaN. A valid row has some
      latitude field and some longitude field. */
  predicate IsValid(p: Point, parse: Parser): (valid: bool)
    ensures valid <==> Coords(p, parse).0.Some? && Coords(p, parse).1.Some?
    ensures valid ==> ("latitude" in p.model || "lat" in p.model)
    ensures valid ==> ("longitude" in p.model || "lng" in p.model || "long" in p.model)
  {
    Latitude(p, parse).Some? && Longitude(p, parse).Some?
  }

  /** A row whose `lat` and `lng` parse, and that has no non-empty
      `latitude`/`longitude` to shadow them, is valid at exactly those
      coordinates. */
  lemma ShortFieldsGiveCoords(p: Point, parse: Parser, lat: real, lng: real)
    requires !Truthy(Lookup(p.model, "latitude")) && !Truthy(Lookup(p.model, "longitude"))
    requires "lat" in p.model && p.model["lat"] != "" && parse(p.model["lat"]) == Some(lat)
    requires "lng" in p.model && p.model["lng"] != "" && parse(p.model["lng"]) == Some(lng)
    ensures IsValid(p, parse)
    ensures Coords(p, parse) == (Some(lat), Some(lng))
  {
  }

  /** A row with no latitude field at all is never valid. */
  lemma MissingLatitudeInvalid(p: Point, parse: Parser)
    requires "latitude" !in p.model && "lat" !in p.model
    ensures !IsValid(p, parse)
  {
  }

  /** `title()`: the row value of the title column, undefined if none is set. */
  function Title(p: Point): (r: Option<string>)
    ensures p.titleColumn.None? ==> r.None?
    ensures p.titleColumn.Some? ==> r == Lookup(p.model, NormalizeField(p.titleColumn.value))
  {
    Get(p, p.titleColumn)
  }

  /** How `+` renders a string-or-undefined in JavaScript. */
  function Show(v: Option<string>): (r: string)
    ensures v.Some? ==> r == v.value
    ensures v.None? ==> r == "undefined"
  {
    if v.Some? then v.value else "undefined"
  }

  /** One `<p>` line of the synthesised popup. */
  function FieldLine(p: Point, field: string): (line: string) {
    "<p><strong>" + field + "</strong>: " + Show(Get(p, Some(field))) + "</p>"
  }

  /** The `<p>` lines for `fields`, one per field, in list order (built from
      the back, as the loop appends). */
  function FieldsHtml(p: Point, fields: seq<string>): (html: string)
    decreases |fields|
  {
    if fields == [] then "" else FieldsHtml(p, fields[..|fields| - 1]) + FieldLine(p, fields[|fields| - 1])
  }

  /** Appending a field appends its line. */
  lemma FieldsHtmlSnoc(p: Point, fields: seq<string>, f: string)
    ensures FieldsHtml(p, fields + [f]) == FieldsHtml(p, fields) + FieldLine(p, f)
  {
    var all := fields + [f];
    assert all[..|all| - 1] == fields;
    assert all[|all| - 1] == f;
  }

  /** The lines of a concatenated field list are the concatenated lines. */
  lemma {:induction false} FieldsHtmlAppend(p: Point, a: seq<string>, b: seq<string>)
    ensures FieldsHtml(p, a + b) == FieldsHtml(p, a) + FieldsHtml(p, b)
    decreases |b|
  {
    if b == [] {
      assert a + b == a;
      assert FieldsHtml(p, a) + "" == FieldsHtml(p, a);
    } else {
      var b' := b[..|b| - 1];
      var f := b[|b| - 1];
      assert b == b' + [f];
      assert a + b == (a + b') + [f];
      FieldsHtmlSnoc(p, a + b', f);
      FieldsHtmlSnoc(p, b', f);
      FieldsHtmlAppend(p, a, b');
      AppendAssoc(FieldsHtml(p, a), FieldsHtml(p, b'), FieldLine(p, f));
    }
  }

  /** The first listed field's line comes first. */
  lemma FieldsHtmlFront(p: Point, f: string, rest: seq<string>)
    ensures FieldsHtml(p, [f] + rest) == FieldLine(p, f) + FieldsHtml(p, rest)
  {
    FieldsHtmlAppend(p, [f], rest);
    FieldsHtmlSnoc(p, [], f);
    assert [] + [f] == [f];
    assert "" + FieldLine(p, f) == FieldLine(p, f);
  }

  /** The `<h3>` heading, present only for a defined, non-empty title. */
  function Heading(p: Point): (h: string)
    ensures !Truthy(Title(p)) ==> h == ""
  {
    if Truthy(Title(p)) then "<h3>" + Title(p).value + "</h3>" else ""
  }

  /** The popup HTML synthesised from the field list. */
  function Synthesized(p: Point): (html: string)
    requires p.fields.Some?
  {
    Heading(p) + FieldsHtml(p, p.fields.value)
  }

  /** `content()`: popup function, else popup template, else synthesised
      fields, else ''. No wrapper element is added. */
  function Content(p: Point): (r: string)
    ensures p.popupContent.Some? ==> r == p.popupContent.value(p.model)
    ensures p.popupContent.None? && p.popupTemplate.Some? ==> r == p.popupTemplate.value(p.model)
    ensures p.popupContent.None? && p.popupTemplate.None? && p.fields.None? ==> r == ""
    ensures p.popupContent.None? && p.popupTemplate.None? && p.fields.Some? ==>
      r == Synthesized(p)
  {
    if p.popupContent.Some? then p.popupContent.value(p.model)
    else if p.popupTemplate.Some? then p.popupTemplate.value(p.model)
    else if p.fields.Some? then Synthesized(p)
    else ""
  }

  /** The popup function shadows the template and the field list entirely. */
  lemma ContentFunctionWins(p: Point, template: Option<Renderer>, fields: Option<seq<string>>)
    requires p.popupContent.Some?
    ensures Content(p.(popupTemplate := template, fields := fields)) == Content(p)
  {
  }

  /** With a defined, non-empty title the synthesised popup opens with the
      heading; otherwise it is just the field lines, which start with `<p>`
      (or are empty). */
  lemma SynthesizedShape(p: Point)
    requires p.fields.Some?
    ensures Truthy(Title(p)) ==>
      Synthesized(p) == "<h3>" + Title(p).value + "</h3>" + FieldsHtml(p, p.fields.value)
    ensures !Truthy(Title(p)) ==> Synthesized(p) == FieldsHtml(p, p.fields.value)
    ensures !Truthy(Title(p)) && p.fields.value != [] ==> Synthesized(p)[..3] == "<p>"
  {
    var fs := p.fields.value;
    if !Truthy(Title(p)) && fs != [] {
      assert Synthesized(p) == "" + FieldsHtml(p, fs);
      assert "" + FieldsHtml(p, fs) == FieldsHtml(p, fs);
      assert fs == [fs[0]] + fs[1..];
      FieldsHtmlFront(p, fs[0], fs[1..]);
      FieldLineOpens(p, fs[0]);
      PrefixOfAppend(FieldLine(p, fs[0]), FieldsHtml(p, fs[1..]), 3);
    }
  }

  /** Every field line opens with `<p>`. */
  lemma FieldLineOpens(p: Point, field: string)
    ensures |FieldLine(p, field)| >= 3 && FieldLine(p, field)[..3] == "<p>"
  {
    var open := "<p><strong>";
    var rest := field + "</strong>: " + Show(Get(p, Some(field))) + "</p>";
    AppendAssoc(open, field, "</strong>: ");
    assert FieldLine(p, field) == open + rest;
    PrefixOfAppend(open, rest, 3);
  }

  /** The loop of `content()` that builds the synthesised HTML. */
  method SynthesizeContent(p: Point) returns (html: string)
    requires p.fields.Some?
    ensures html == Synthesized(p)
  {
    var fields := p.fields.value;
    html := "";
    var title := Title(p);
    if title.Some? && title.value != "" {
      html := html + ("<h3>" + title.value + "</h3>");
    }
    assert html == Heading(p);
    assert fields[..0] == [];
    var i := 0;
    while i < |fields|
      invariant 0 <= i <= |fields|
      invariant html == Heading(p) + FieldsHtml(p, fields[..i])
    {
      var line := "<p><strong>" + fields[i] + "</strong>: " + Show(Get(p, Some(fields[i]))) + "</p>";
      FieldsHtmlStep(p, fields, i);
      AppendAssoc(Heading(p), FieldsHtml(p, fields[..i]), line);
      html := html + line;
      i := i + 1;
    }
    assert fields[..|fields|] == fields;
  }

  lemma FieldsHtmlStep(p: Point, fields: seq<string>, i: nat)
    requires i < |fields|
    ensures FieldsHtml(p, fields[..i + 1]) == FieldsHtml(p, fields[..i]) + FieldLine(p, fields[i])
  {
    var pre := fields[..i + 1];
    assert pre[..|pre| - 1] == fields[..i];
    assert pre[|pre| - 1] == fields[i];
  }
}
