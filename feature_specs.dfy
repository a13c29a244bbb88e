/**
 * The feature-spec parser of the GeoGit test data builder (`parseFeatureSpecs`): each spec is
 * written `<id>=<attname>:<value>[;<attname>:<value>]+` and becomes the map from the feature id
 * to its attribute values; an empty value is meant to stand for null.
 */
module GeogitTestData {
  import opened Wrappers
  import opened JavaStrings

  /** The attribute values of one feature; `None` is a null value. */
  type Attributes = map<string, Option<string>>

  /** The `IllegalArgumentException`s the parser raises, with what their messages show. */
  datatype SpecError =
    | InvalidFeatureSpec(spec: string)
    | InvalidFid(spec: string)
    | DuplicateFid(fid: string)
    | InvalidAttributeSpec(attSpec: string, spec: string)
    | EmptyAttributeName(attSpec: string, spec: string)

  datatype Parsed<T> = Parsed(value: T) | Invalid(error: SpecError)

  /** One attribute assignment as a spec writes it. */
  datatype Binding = Binding(name: string, value: Option<string>)

  /**
   * One `<attname>:<value>` piece, as written: `split(":")` must give two parts and the name
   * must not be empty; an empty value would be null.
   */
  function AttributeSpec(attSpec: string, spec: string): (r: Parsed<Binding>)
    ensures r.Parsed? ==> r.value.name != "" && ':' !in r.value.name
    ensures r.Parsed? ==> r.value.value.Some?
  {
    var attval := Split(attSpec, ':');
    if |attval| != 2 then Invalid(InvalidAttributeSpec(attSpec, spec))
    else if attval[0] == "" then Invalid(EmptyAttributeName(attSpec, spec))
    else Parsed(Binding(attval[0], if attval[1] == "" then None else Some(attval[1])))
  }

  /** The attributes of a list of pieces: each is put in turn, so a later name overrides. */
  function AttributesOf(attSpecs: seq<string>, spec: string): (r: Parsed<Attributes>)
    decreases |attSpecs|
  {
    if attSpecs == [] then Parsed(map[])
    else
      match AttributesOf(attSpecs[..|attSpecs| - 1], spec)
      case Invalid(e) => Invalid(e)
      case Parsed(attributes) =>
        match AttributeSpec(attSpecs[|attSpecs| - 1], spec)
        case Invalid(e) => Invalid(e)
        case Parsed(b) => Parsed(attributes[b.name := b.value])
  }

  /** The fid of a spec: the text before its '=' when it splits into exactly two parts. */
  function Fid(spec: string): Option<string>
  {
    var split := Split(spec, '=');
    if |split| == 2 then Some(split[0]) else None
  }

  /** One spec added to the specs parsed so far. */
  function FeatureSpec(spec: string, specs: map<string, Attributes>): (r: Parsed<map<string, Attributes>>)
    ensures r.Parsed? ==> Fid(spec).Some? && Fid(spec).value != "" && Fid(spec).value !in specs
    ensures r.Parsed? ==> r.value.Keys == specs.Keys + {Fid(spec).value}
  {
    var split := Split(spec, '=');
    if |split| != 2 then Invalid(InvalidFeatureSpec(spec))
    else
      var fid := split[0];
      if fid == "" then Invalid(InvalidFid(spec))
      else if fid in specs then Invalid(DuplicateFid(fid))
      else
        match AttributesOf(Split(split[1], ';'), spec)
        case Invalid(e) => Invalid(e)
        case Parsed(attributes) => Parsed(specs[fid := attributes])
  }

  /** The whole parse: the specs in order, stopping at the first error. */
  function FeatureSpecs(featureSpecs: seq<string>): (r: Parsed<map<string, Attributes>>)
    decreases |featureSpecs|
  {
    if featureSpecs == [] then Parsed(map[])
    else
      match FeatureSpecs(featureSpecs[..|featureSpecs| - 1])
      case Invalid(e) => Invalid(e)
      case Parsed(specs) => FeatureSpec(featureSpecs[|featureSpecs| - 1], specs)
  }

  /** Once a prefix of the pieces is invalid, the whole list fails with the same error. */
  lemma {:induction false} AttributesStopAtFirstError(attSpecs: seq<string>, k: nat, spec: string)
    requires k <= |attSpecs| && AttributesOf(attSpecs[..k], spec).Invalid?
    ensures AttributesOf(attSpecs, spec) == AttributesOf(attSpecs[..k], spec)
    decreases |attSpecs|
  {
    if k < |attSpecs| {
      var shorter := attSpecs[..|attSpecs| - 1];
      assert shorter[..k] == attSpecs[..k];
      AttributesStopAtFirstError(shorter, k, spec);
    } else {
      assert attSpecs[..k] == attSpecs;
    }
  }

  /** Once a prefix of the specs is invalid, the whole parse fails with the same error. */
  lemma {:induction false} SpecsStopAtFirstError(featureSpecs: seq<string>, k: nat)
    requires k <= |featureSpecs| && FeatureSpecs(featureSpecs[..k]).Invalid?
    ensures FeatureSpecs(featureSpecs) == FeatureSpecs(featureSpecs[..k])
    decreases |featureSpecs|
  {
    if k < |featureSpecs| {
      var shorter := featureSpecs[..|featureSpecs| - 1];
      assert shorter[..k] == featureSpecs[..k];
      SpecsStopAtFirstError(shorter, k);
    } else {
      assert featureSpecs[..k] == featureSpecs;
    }
  }

  /** One more spec extends the parse of the specs before it. */
  lemma SpecsStep(featureSpecs: seq<string>, i: nat, specs: map<string, Attributes>)
    requires i < |featureSpecs| && FeatureSpecs(featureSpecs[..i]) == Parsed(specs)
    ensures FeatureSpecs(featureSpecs[..i + 1]) == FeatureSpec(featureSpecs[i], specs)
  {
    assert featureSpecs[..i + 1][..i] == featureSpecs[..i];
  }

  /** A spec with a new, non-empty fid and valid attributes adds them under its fid. */
  lemma SpecParsed(spec: string, specs: map<string, Attributes>, attributes: Attributes)
    requires |Split(spec, '=')| == 2 && Split(spec, '=')[0] != "" && Split(spec, '=')[0] !in specs
    requires AttributesOf(Split(Split(spec, '=')[1], ';'), spec) == Parsed(attributes)
    ensures FeatureSpec(spec, specs) == Parsed(specs[Split(spec, '=')[0] := attributes])
  {
  }

  /** The inner loop of `parseFeatureSpecs`: one spec's attribute pieces, put in turn. */
  method ParseAttributes(attSpecs: seq<string>, spec: string) returns (r: Parsed<Attributes>)
    ensures r == AttributesOf(attSpecs, spec)
  {
    var attributes: Attributes := map[];
    var j := 0;
    while j < |attSpecs|
      invariant 0 <= j <= |attSpecs|
      invariant AttributesOf(attSpecs[..j], spec) == Parsed(attributes)
    {
      var attSpec := attSpecs[j];
      assert attSpecs[..j + 1][..j] == attSpecs[..j];
      var attval := Split(attSpec, ':');
      if |attval| != 2 || attval[0] == "" {
        r := if |attval| != 2 then Invalid(InvalidAttributeSpec(attSpec, spec))
          else Invalid(EmptyAttributeName(attSpec, spec));
        assert AttributesOf(attSpecs[..j + 1], spec) == r;
        AttributesStopAtFirstError(attSpecs, j + 1, spec);
        return;
      }
      var attName := attval[0];
      var attValue: Option<string> := Some(attval[1]);
      if attval[1] == "" {
        attValue := None;
      }
      attributes := attributes[attName := attValue];
      j := j + 1;
    }
    assert attSpecs[..j] == attSpecs;
    r := Parsed(attributes);
  }

  /** One pass of `parseFeatureSpecs`' outer loop: the spec's fid checks, then its attributes. */
  method ParseFeatureSpec(spec: string, specs: map<string, Attributes>) returns (r: Parsed<map<string, Attributes>>)
    ensures r == FeatureSpec(spec, specs)
  {
    var split := Split(spec, '=');
    if |split| != 2 {
      return Invalid(InvalidFeatureSpec(spec));
    }
    if split[0] == "" {
      return Invalid(InvalidFid(spec));
    }
    if split[0] in specs {
      return Invalid(DuplicateFid(split[0]));
    }
    var attributes := ParseAttributes(Split(split[1], ';'), spec);
    if attributes.Invalid? {
      return Invalid(attributes.error);
    }
    SpecParsed(spec, specs, attributes.value);
    r := Parsed(specs[split[0] := attributes.value]);
  }

  /** `parseFeatureSpecs`: the outer loop over the specs, stopping at the first invalid one. */
  method ParseFeatureSpecs(featureSpecs: seq<string>) returns (r: Parsed<map<string, Attributes>>)
    ensures r == FeatureSpecs(featureSpecs)
  {
    var specs: map<string, Attributes> := map[];
    var i := 0;
    while i < |featureSpecs|
      invariant 0 <= i <= |featureSpecs|
      invariant FeatureSpecs(featureSpecs[..i]) == Parsed(specs)
    {
      var next := ParseFeatureSpec(featureSpecs[i], specs);
      SpecsStep(featureSpecs, i, specs);
      if next.Invalid? {
        SpecsStopAtFirstError(featureSpecs, i + 1);
        return next;
      }
      specs := next.value;
      i := i + 1;
    }
    assert featureSpecs[..i] == featureSpecs;
    r := Parsed(specs);
  }

  /** Text free of the three characters the format uses as separators. */
  predicate Plain(t: string)
  {
    '=' !in t && ';' !in t && ':' !in t
  }

  /** An assignment the format can express: a non-empty plain name and a plain value. */
  predicate Expressible(b: Binding)
  {
    b.name != "" && Plain(b.name) && (b.value.Some? ==> b.value.value != "" && Plain(b.value.value))
  }

  /** Assignments the format can express, each with a value. */
  predicate Writable(bindings: seq<Binding>)
  {
    forall k :: 0 <= k < |bindings| ==> Expressible(bindings[k]) && bindings[k].value.Some?
  }

  /** The piece `<attname>:<value>` for an assignment, a null value written as nothing. */
  function AttributeText(b: Binding): string
  {
    b.name + ":" + b.value.Or("")
  }

  function AttributeTexts(bindings: seq<Binding>): (r: seq<string>)
    ensures |r| == |bindings|
    ensures forall k :: 0 <= k < |r| ==> r[k] == AttributeText(bindings[k])
  {
    seq(|bindings|, k requires 0 <= k < |bindings| => AttributeText(bindings[k]))
  }

  /** The spec `<id>=<piece>;<piece>...` for a feature. */
  function FeatureText(fid: string, bindings: seq<Binding>): string
  {
    fid + "=" + Join(AttributeTexts(bindings), ';')
  }

  /** The attribute map the assignments mean: each is put in turn, so the last one wins. */
  function BindingsMap(bindings: seq<Binding>): Attributes
    decreases |bindings|
  {
    if bindings == [] then map[]
    else
      var last := bindings[|bindings| - 1];
      BindingsMap(bindings[..|bindings| - 1])[last.name := last.value]
  }

  /** The value a name ends up with is the one of its last assignment. */
  lemma {:induction false} LastAssignmentWins(bindings: seq<Binding>, k: nat)
    requires k < |bindings|
    requires forall j :: k < j < |bindings| ==> bindings[j].name != bindings[k].name
    ensures bindings[k].name in BindingsMap(bindings)
    ensures BindingsMap(bindings)[bindings[k].name] == bindings[k].value
    decreases |bindings|
  {
    if k < |bindings| - 1 {
      var shorter := bindings[..|bindings| - 1];
      assert shorter[k] == bindings[k];
      LastAssignmentWins(shorter, k);
    }
  }

  /** Only assigned names are in the map. */
  lemma {:induction false} OnlyAssignedNames(bindings: seq<Binding>, name: string)
    requires name in BindingsMap(bindings)
    ensures exists k :: 0 <= k < |bindings| && bindings[k].name == name
    decreases |bindings|
  {
    var n := |bindings|;
    if bindings[n - 1].name != name {
      OnlyAssignedNames(bindings[..n - 1], name);
      var k :| 0 <= k < n - 1 && bindings[..n - 1][k].name == name;
      assert bindings[k].name == name;
    }
  }

  /** A name and a non-empty value joined by ':' split back into the two. */
  lemma SplitAttributeText(name: string, value: string)
    requires ':' !in name && ':' !in value && value != ""
    ensures Split(name + ":" + value, ':') == [name, value]
  {
    assert Join([name, value], ':') == name + ":" + value;
    SplitJoin([name, value], ':');
  }

  /** As written, every expressible assignment with a value reads back as itself. */
  lemma AttributeSpecRoundTrip(b: Binding, spec: string)
    requires Expressible(b) && b.value.Some?
    ensures AttributeSpec(AttributeText(b), spec) == Parsed(b)
  {
    SplitAttributeText(b.name, b.value.value);
  }

  /**
   * As written, an empty value is refused: `split(":")` drops the trailing empty string, so
   * "name:" has one part, and the null branch for an empty value is never taken.
   */
  lemma EmptyValueIsRejected(name: string, spec: string)
    requires name != "" && ':' !in name
    ensures AttributeSpec(name + ":", spec) == Invalid(InvalidAttributeSpec(name + ":", spec))
  {
    var t := name + ":";
    assert t == Join([name, ""], ':');
    SplitAllJoin([name, ""], ':');
    assert t[|t| - 1] == ':';
    assert DropTrailingEmpty([name, ""]) == [name] by {
      assert [name, ""][..1] == [name];
    }
  }

  /**
   * The piece as the format describes it, with `split(":", -1)`, which keeps the trailing empty
   * string: an empty value is read as null.
   */
  function IntendedAttributeSpec(attSpec: string, spec: string): (r: Parsed<Binding>)
    ensures r.Parsed? ==> r.value.name != "" && ':' !in r.value.name
  {
    var attval := SplitAll(attSpec, ':');
    if |attval| != 2 then Invalid(InvalidAttributeSpec(attSpec, spec))
    else if attval[0] == "" then Invalid(EmptyAttributeName(attSpec, spec))
    else Parsed(Binding(attval[0], if attval[1] == "" then None else Some(attval[1])))
  }

  /** With the intended split every expressible assignment reads back, a null value included. */
  lemma IntendedAttributeSpecRoundTrip(b: Binding, spec: string)
    requires Expressible(b)
    ensures IntendedAttributeSpec(AttributeText(b), spec) == Parsed(b)
    ensures b.value.Some? ==> AttributeSpec(AttributeText(b), spec) == Parsed(b)
    ensures b.value.None? ==> AttributeSpec(AttributeText(b), spec).Invalid?
  {
    assert AttributeText(b) == Join([b.name, b.value.Or("")], ':');
    SplitAllJoin([b.name, b.value.Or("")], ':');
    if b.value.Some? {
      AttributeSpecRoundTrip(b, spec);
    } else {
      EmptyValueIsRejected(b.name, spec);
    }
  }

  /** The pieces of expressible assignments with values read back as the map they mean. */
  lemma {:induction false} AttributesOfRendered(bindings: seq<Binding>, spec: string)
    requires Writable(bindings)
    ensures AttributesOf(AttributeTexts(bindings), spec) == Parsed(BindingsMap(bindings))
    decreases |bindings|
  {
    if bindings != [] {
      var n := |bindings|;
      var texts := AttributeTexts(bindings);
      var shorter := bindings[..n - 1];
      assert texts[..n - 1] == AttributeTexts(shorter);
      assert Writable(shorter) by {
        assert forall k :: 0 <= k < n - 1 ==> shorter[k] == bindings[k];
      }
      AttributesOfRendered(shorter, spec);
      AttributeSpecRoundTrip(bindings[n - 1], spec);
    }
  }

  /** A piece's text is not empty and holds neither '=' nor ';'. */
  lemma AttributeTextsArePieces(bindings: seq<Binding>)
    requires forall k :: 0 <= k < |bindings| ==> Expressible(bindings[k])
    ensures forall k :: 0 <= k < |bindings| ==>
      (AttributeTexts(bindings)[k] != "" && '=' !in AttributeTexts(bindings)[k]
       && ';' !in AttributeTexts(bindings)[k])
  {
    forall k | 0 <= k < |bindings|
      ensures AttributeTexts(bindings)[k] != ""
      ensures '=' !in AttributeTexts(bindings)[k] && ';' !in AttributeTexts(bindings)[k]
    {
      var b := bindings[k];
      assert AttributeText(b)[|b.name|] == ':';
    }
  }

  /** A feature's text splits into its fid and its pieces. */
  lemma SplitFeatureText(fid: string, bindings: seq<Binding>)
    requires Plain(fid) && |bindings| >= 1
    requires forall k :: 0 <= k < |bindings| ==> Expressible(bindings[k])
    ensures Split(FeatureText(fid, bindings), '=') == [fid, Join(AttributeTexts(bindings), ';')]
    ensures Split(Join(AttributeTexts(bindings), ';'), ';') == AttributeTexts(bindings)
  {
    var texts := AttributeTexts(bindings);
    var joined := Join(texts, ';');
    AttributeTextsArePieces(bindings);
    SplitJoin(texts, ';');
    NotInJoin(texts, ';', '=');
    assert |joined| >= |texts[0]|;
    assert FeatureText(fid, bindings) == Join([fid, joined], '=');
    SplitJoin([fid, joined], '=');
  }

  /**
   * A feature with at least one expressible assignment, each with a value, and a new plain fid
   * reads back as its attribute map under its fid.
   */
  lemma FeatureSpecRoundTrip(fid: string, bindings: seq<Binding>, specs: map<string, Attributes>)
    requires fid != "" && Plain(fid) && fid !in specs && |bindings| >= 1
    requires Writable(bindings)
    ensures FeatureSpec(FeatureText(fid, bindings), specs) == Parsed(specs[fid := BindingsMap(bindings)])
  {
    SplitFeatureText(fid, bindings);
    AttributesOfRendered(bindings, FeatureText(fid, bindings));
  }

  /** Every spec's fid is a key of the map. */
  predicate AllFidsIn(featureSpecs: seq<string>, specs: map<string, Attributes>)
  {
    forall i :: 0 <= i < |featureSpecs| ==> Fid(featureSpecs[i]).Some? && Fid(featureSpecs[i]).value in specs
  }

  /** No two specs share a fid. */
  predicate DistinctFids(featureSpecs: seq<string>)
  {
    forall i, j :: 0 <= i < j < |featureSpecs| ==> Fid(featureSpecs[i]) != Fid(featureSpecs[j])
  }

  /** A successful parse is a successful parse of all but the last spec, extended by the last. */
  lemma ParsedPrefix(featureSpecs: seq<string>, specs: map<string, Attributes>)
    requires featureSpecs != [] && FeatureSpecs(featureSpecs) == Parsed(specs)
    ensures var n := |featureSpecs|;
      FeatureSpecs(featureSpecs[..n - 1]).Parsed?
      && FeatureSpec(featureSpecs[n - 1], FeatureSpecs(featureSpecs[..n - 1]).value) == Parsed(specs)
  {
  }

  /** The last spec's fid joins the fids of the specs before it. */
  lemma AllFidsInStep(featureSpecs: seq<string>, before: map<string, Attributes>,
                      specs: map<string, Attributes>)
    requires featureSpecs != []
    requires var n := |featureSpecs|;
      FeatureSpec(featureSpecs[n - 1], before) == Parsed(specs) && AllFidsIn(featureSpecs[..n - 1], before)
    ensures AllFidsIn(featureSpecs, specs)
  {
    var n := |featureSpecs|;
    var shorter := featureSpecs[..n - 1];
    assert specs.Keys == before.Keys + {Fid(featureSpecs[n - 1]).value};
    forall i | 0 <= i < n - 1
      ensures Fid(featureSpecs[i]).Some? && Fid(featureSpecs[i]).value in specs
    {
      assert featureSpecs[i] == shorter[i];
      assert Fid(shorter[i]).value in before.Keys;
    }
  }

  /** The last spec's fid is new, so the fids stay distinct. */
  lemma DistinctFidsStep(featureSpecs: seq<string>, before: map<string, Attributes>,
                         specs: map<string, Attributes>)
    requires featureSpecs != []
    requires var n := |featureSpecs|;
      FeatureSpec(featureSpecs[n - 1], before) == Parsed(specs)
      && AllFidsIn(featureSpecs[..n - 1], before) && DistinctFids(featureSpecs[..n - 1])
    ensures DistinctFids(featureSpecs)
  {
    var n := |featureSpecs|;
    var shorter := featureSpecs[..n - 1];
    forall i, j | 0 <= i < j < n
      ensures Fid(featureSpecs[i]) != Fid(featureSpecs[j])
    {
      assert featureSpecs[i] == shorter[i];
      if j < n - 1 {
        assert featureSpecs[j] == shorter[j];
      }
    }
  }

  /**
   * A parsed result holds one entry per spec, under the spec's fid: no fid repeats and none is
   * lost.
   */
  lemma {:induction false} ParsedSpecsAreKeyedByFid(featureSpecs: seq<string>,
                                                    specs: map<string, Attributes>)
    requires FeatureSpecs(featureSpecs) == Parsed(specs)
    ensures AllFidsIn(featureSpecs, specs) && DistinctFids(featureSpecs)
    ensures |specs| == |featureSpecs|
    decreases |featureSpecs|
  {
    if featureSpecs != [] {
      var n := |featureSpecs|;
      ParsedPrefix(featureSpecs, specs);
      var before := FeatureSpecs(featureSpecs[..n - 1]).value;
      ParsedSpecsAreKeyedByFid(featureSpecs[..n - 1], before);
      AllFidsInStep(featureSpecs, before, specs);
      DistinctFidsStep(featureSpecs, before, specs);
      var fid := Fid(featureSpecs[n - 1]).value;
      assert specs.Keys == before.Keys + {fid} && fid !in before;
      assert |specs.Keys| == |before.Keys| + 1;
    }
  }

  /**
   * A spec whose attribute part is only ';' is accepted with no attributes: `split(";")` of ";"
   * is empty, so the loop over the pieces does not run.
   */
  lemma SeparatorOnlyGivesNoAttributes(fid: string, specs: map<string, Attributes>)
    requires fid != "" && Plain(fid) && fid !in specs
    ensures FeatureSpec(fid + "=;", specs) == Parsed(specs[fid := map[]])
  {
    assert fid + "=;" == Join([fid, ";"], '=');
    SplitJoin([fid, ";"], '=');
    assert Join(["", ""], ';') == ";";
    SplitAllJoin(["", ""], ';');
    assert ";"[0] == ';';
    assert Split(";", ';') == [];
  }
}
