/** internal/platform/web/request.go: turning a request body into a value and
    shaping decoding and validation failures into errors. The JSON decoder and
    the go-playground validator are outside the model: their verdicts on a body
    are given as a `Decoded` value. */
module WebRequest {
  import opened Wrappers
  import opened WebErrors

  /** One failing field as reported by the validator: the Go field name, the
      text of its `json` struct tag, and the translated message. */
  datatype FieldFailure = FieldFailure(goName: string, jsonTag: string, message: string)

  /** What `validate.Struct` returns: nil, a ValidationErrors list, or any
      other error. */
  datatype Validation =
    | Passed
    | Invalid(failures: seq<FieldFailure>)
    | ValidatorError(err: Err)

  /** The decoder's result (an unknown field is a decoding failure, since
      unknown fields are disallowed) and the validator's verdict on it. */
  datatype Decoded<T> = Decoded(json: Result<T, Err>, validation: Validation)

  /** strings.SplitN(tag, ",", 2)[0]: the tag text before the first comma, or
      the whole tag when it has none. */
  function BeforeComma(tag: string): (name: string)
    ensures ',' !in name
    ensures name <= tag
    ensures name == tag || tag[|name|] == ','
    decreases |tag|
  {
    if tag == [] || tag[0] == ',' then "" else [tag[0]] + BeforeComma(tag[1..])
  }

  /** The tag-name function registered in `init`: the json name of the field,
      with "-" (a field JSON ignores) giving the empty name. */
  function TagName(tag: string): (name: string)
    ensures ',' !in name
    ensures name != "-"
    ensures BeforeComma(tag) == "-" ==> name == ""
    ensures BeforeComma(tag) != "-" ==> name == BeforeComma(tag)
  {
    var name := BeforeComma(tag);
    if name == "-" then "" else name
  }

  /** The name a failing field is reported under: the validator uses the Go
      field name when the tag-name function gives the empty name. */
  function ReportedName(f: FieldFailure): (name: string)
    ensures TagName(f.jsonTag) != "" ==> name == TagName(f.jsonTag)
    ensures TagName(f.jsonTag) == "" ==> name == f.goName
  {
    var t := TagName(f.jsonTag);
    if t == "" then f.goName else t
  }

  /** The FieldError built from the failures, in the order the validator lists
      them: a later failure for the same name replaces an earlier one. */
  function FieldMap(fs: seq<FieldFailure>): (m: FieldError)
    decreases |fs|
  {
    if fs == [] then map[]
    else FieldMap(fs[..|fs| - 1])[ReportedName(fs[|fs| - 1]) := fs[|fs| - 1].message]
  }

  /** Every failing field has an entry in the map ... */
  lemma {:induction false} FieldMapHasAll(fs: seq<FieldFailure>, i: int)
    requires 0 <= i < |fs|
    ensures ReportedName(fs[i]) in FieldMap(fs)
    decreases |fs|
  {
    var init := fs[..|fs| - 1];
    var last := fs[|fs| - 1];
    assert FieldMap(fs) == FieldMap(init)[ReportedName(last) := last.message];
    if i < |init| {
      assert fs[i] == init[i];
      FieldMapHasAll(init, i);
    }
  }

  /** ... and the map has no other entry. */
  lemma {:induction false} FieldMapOnlyFailures(fs: seq<FieldFailure>, k: string)
    requires k in FieldMap(fs)
    ensures exists i :: 0 <= i < |fs| && ReportedName(fs[i]) == k
    decreases |fs|
  {
    var init := fs[..|fs| - 1];
    var last := fs[|fs| - 1];
    assert FieldMap(fs) == FieldMap(init)[ReportedName(last) := last.message];
    if k == ReportedName(last) {
      assert ReportedName(fs[|fs| - 1]) == k;
    } else {
      FieldMapOnlyFailures(init, k);
      var i :| 0 <= i < |init| && ReportedName(init[i]) == k;
      assert fs[i] == init[i];
    }
  }

  /** The message kept for a name is that of the last failure reported under it. */
  lemma {:induction false} FieldMapLastWins(fs: seq<FieldFailure>, j: int)
    requires 0 <= j < |fs|
    requires forall i :: j < i < |fs| ==> ReportedName(fs[i]) != ReportedName(fs[j])
    ensures ReportedName(fs[j]) in FieldMap(fs)
    ensures FieldMap(fs)[ReportedName(fs[j])] == fs[j].message
    decreases |fs|
  {
    if j < |fs| - 1 {
      var init := fs[..|fs| - 1];
      assert init[j] == fs[j];
      assert forall i :: j < i < |init| ==> init[i] == fs[i];
      FieldMapLastWins(init, j);
    }
  }

  /** The `for range` loop of Decode that fills the FieldError map. */
  method CollectFieldErrors(verrors: seq<FieldFailure>) returns (fields: FieldError)
    ensures fields == FieldMap(verrors)
  {
    fields := map[];
    var i := 0;
    while i < |verrors|
      invariant 0 <= i <= |verrors|
      invariant fields == FieldMap(verrors[..i])
    {
      assert verrors[..i + 1][..i] == verrors[..i];
      fields := fields[ReportedName(verrors[i]) := verrors[i].message];
      i := i + 1;
    }
    assert verrors[..i] == verrors;
  }

  const FieldValidationError: Err := Plain("field validation error")

  /** Decode: a decoding failure (malformed JSON or an unknown field) is a 400
      request error without field messages; validation failures are a 400
      error carrying one message per failing field; any other validator error
      is passed on as it is; otherwise the decoded value. */
  function Decode<T>(d: Decoded<T>): (r: Result<T, Err>)
    ensures d.json.Failure? ==> r == Failure(NewRequestError(d.json.error, 400))
    ensures d.json.Success? && d.validation.Passed? ==> r == Success(d.json.value)
    ensures d.json.Success? && d.validation.Invalid? ==>
      r.Failure? && r.error.WebError? && r.error.status == 400 &&
      r.error.err == FieldValidationError && r.error.fields == FieldMap(d.validation.failures)
    ensures d.json.Success? && d.validation.ValidatorError? ==> r == Failure(d.validation.err)
    ensures r.Success? <==> d.json.Success? && d.validation.Passed?
  {
    match d.json
    case Failure(e) => Failure(NewRequestError(e, 400))
    case Success(v) =>
      match d.validation
      case Passed => Success(v)
      case Invalid(fs) => Failure(WebError(FieldValidationError, 400, FieldMap(fs)))
      case ValidatorError(e) => Failure(e)
  }

  /** A tag without a comma is the name itself. */
  lemma {:induction false} BeforeCommaWhole(tag: string)
    requires ',' !in tag
    ensures BeforeComma(tag) == tag
    decreases |tag|
  {
    if tag != [] {
      BeforeCommaWhole(tag[1..]);
    }
  }

  /** A tag with options (`name,omitempty`) gives the name before the comma. */
  lemma {:induction false} BeforeCommaOptions(name: string, opts: string)
    requires ',' !in name
    ensures BeforeComma(name + "," + opts) == name
    decreases |name|
  {
    if name == [] {
      assert (name + "," + opts)[0] == ',';
    } else {
      assert (name + "," + opts)[1..] == name[1..] + "," + opts;
      BeforeCommaOptions(name[1..], opts);
    }
  }

  /** The json name of a field whose tag is `name` or `name,options`, and the
      empty name for a tag `-` or `-,options`. */
  lemma TagNameForms(name: string, opts: string)
    requires ',' !in name
    ensures name != "-" ==> TagName(name) == name && TagName(name + "," + opts) == name
    ensures TagName("-") == "" && TagName("-," + opts) == ""
  {
    BeforeCommaWhole(name);
    BeforeCommaOptions(name, opts);
    BeforeCommaWhole("-");
    BeforeCommaOptions("-", opts);
    assert "-," + opts == "-" + "," + opts;
  }
}
