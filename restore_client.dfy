/** The request side of the browser client: the active preset's defaults,
    the parameter map the operations panel builds for the selected operation,
    the ordered multipart form `callRestoreAPI` sends, and how a response is
    turned into a result blob or an error message. */
module RestoreClient {
  import opened Wrappers

  type Bytes = seq<bv8>

  /** A browser `File`: its name, MIME type and contents. */
  datatype File = File(name: string, mimeType: string, bytes: Bytes)

  /** What `callRestoreAPI` is handed: the original upload, or the blob of a
      history entry. */
  datatype Payload = UploadedFile(file: File) | ResultBlob(bytes: Bytes)

  /** One multipart form entry: a file part or a text part. */
  datatype FormValue = FileValue(file: File) | TextValue(text: string)
  datatype Field = Field(name: string, value: FormValue)

  /** The `data-h`, `data-clahe` and `data-sharp` attributes of the active
      preset button; all `None` when no preset is active. */
  datatype PresetData = PresetData(h: Option<string>, clahe: Option<string>, sharp: Option<string>)
  const NoPreset := PresetData(None, None, None)

  datatype PresetValues = PresetValues(h: string, clahe: string, sharp: string)

  /** A JavaScript object used as a parameter map, as its entries in
      insertion order; `None` stands for `null`. */
  type Params = seq<(string, Option<string>)>

  /** The `options` argument of `callRestoreAPI`. */
  datatype Options = Options(h: Option<string>, clahe: Option<string>, sharp: Option<string>,
                             op: Option<string>, params: Option<Params>)
  /** `{}`, as the restore button passes it. */
  const NoOptions := Options(None, None, None, None, None)

  /** The values of the operations panel's range inputs, by element id; an
      id that is absent has no element on the page. */
  type Controls = map<string, string>

  /** The HTTP exchange with the service, seen from the client: a 2xx
      response with its body, a non-2xx response with its body text, or a
      `fetch` that rejected with a message. */
  datatype Response = HttpOk(blob: Bytes) | HttpFailure(text: string) | Unreachable(message: string)

  /** JavaScript truthiness of a string that may be null or undefined. */
  predicate Truthy(v: Option<string>) {
    v.Some? && v.value != ""
  }

  /** `a || b` on strings that may be null. */
  function Or(a: Option<string>, b: Option<string>): Option<string> {
    if Truthy(a) then a else b
  }

  /** `v || fallback` where the fallback is a non-empty string. */
  function OrDefault(v: Option<string>, fallback: string): (r: string)
    requires fallback != ""
    ensures r != ""
    ensures Truthy(v) ==> r == v.value
    ensures !Truthy(v) ==> r == fallback
  {
    if Truthy(v) then v.value else fallback
  }

  /** `getActivePresetValues`: each value comes from the active preset when
      it is a non-empty string, else from the built-in defaults. */
  function ActivePresetValues(preset: PresetData): (r: PresetValues)
    ensures r.h != "" && r.clahe != "" && r.sharp != ""
    ensures Truthy(preset.h) ==> r.h == preset.h.value
    ensures Truthy(preset.clahe) ==> r.clahe == preset.clahe.value
    ensures Truthy(preset.sharp) ==> r.sharp == preset.sharp.value
    ensures !Truthy(preset.h) ==> r.h == "10"
    ensures !Truthy(preset.clahe) ==> r.clahe == "2.0"
    ensures !Truthy(preset.sharp) ==> r.sharp == "1.0"
  {
    PresetValues(OrDefault(preset.h, "10"), OrDefault(preset.clahe, "2.0"), OrDefault(preset.sharp, "1.0"))
  }

  /** The file part of the form: an upload is sent as it is, a blob is
      wrapped as `input.png` of type `image/png`. Either way the bytes are
      those of the payload. */
  function FileToSend(input: Payload): (f: File)
    ensures input.UploadedFile? ==> f == input.file
    ensures input.ResultBlob? ==> f.name == "input.png" && f.mimeType == "image/png"
    ensures f.bytes == (if input.UploadedFile? then input.file.bytes else input.bytes)
  {
    match input
    case UploadedFile(file) => file
    case ResultBlob(bytes) => File("input.png", "image/png", bytes)
  }

  /** The form entry a parameter contributes: none when its value is null. */
  function ParamField(p: (string, Option<string>)): seq<Field> {
    if p.1.Some? then [Field(p.0, TextValue(p.1.value))] else []
  }

  /** The form entries of a parameter map, in its order, skipping null values. */
  function NonNullParams(ps: Params): (fs: seq<Field>)
    ensures |fs| <= |ps|
    ensures forall j :: 0 <= j < |fs| ==> fs[j].value.TextValue?
    decreases |ps|
  {
    if ps == [] then [] else NonNullParams(ps[..|ps| - 1]) + ParamField(ps[|ps| - 1])
  }

  /** A text part `(k, v)` is among the parameter entries exactly when the
      map holds `k` with the non-null value `v`. */
  lemma {:induction false} NonNullParamsExact(ps: Params, k: string, v: string)
    ensures Field(k, TextValue(v)) in NonNullParams(ps) <==> exists j :: 0 <= j < |ps| && ps[j] == (k, Some(v))
    decreases |ps|
  {
    if ps != [] {
      var init := ps[..|ps| - 1];
      NonNullParamsExact(init, k, v);
      assert NonNullParams(ps) == NonNullParams(init) + ParamField(ps[|ps| - 1]);
      if exists j :: 0 <= j < |ps| && ps[j] == (k, Some(v)) {
        var j :| 0 <= j < |ps| && ps[j] == (k, Some(v));
        if j < |ps| - 1 {
          assert init[j] == ps[j];
        }
      }
      if exists j :: 0 <= j < |init| && init[j] == (k, Some(v)) {
        var j :| 0 <= j < |init| && init[j] == (k, Some(v));
        assert ps[j] == init[j];
      }
    }
  }

  /** The four entries every request starts with. */
  function FixedFields(input: Payload, preset: PresetData, options: Options): seq<Field> {
    var pv := ActivePresetValues(preset);
    [ Field("file", FileValue(FileToSend(input))),
      Field("h", TextValue(OrDefault(options.h, pv.h))),
      Field("clahe", TextValue(OrDefault(options.clahe, pv.clahe))),
      Field("sharp", TextValue(OrDefault(options.sharp, pv.sharp))) ]
  }

  /** The `op` entry, present only when the operation is a non-empty string. */
  function OpField(options: Options): seq<Field> {
    if Truthy(options.op) then [Field("op", TextValue(options.op.value))] else []
  }

  /** The entries of the parameter map, if one is given. */
  function ParamFields(options: Options): seq<Field> {
    if options.params.Some? then NonNullParams(options.params.value) else []
  }

  /** The ordered form of `callRestoreAPI`: `file`, `h`, `clahe`, `sharp`,
      then `op` when set, then the non-null parameters. */
  function FormFields(input: Payload, preset: PresetData, options: Options): seq<Field> {
    FixedFields(input, preset, options) + OpField(options) + ParamFields(options)
  }

  /** The layout of every outgoing form: the four fixed entries first, each
      text value the option when set, else the preset's, and never empty; the operation next when set, and after that only
      non-null parameters, each of which comes from the parameter map. */
  lemma FormLayout(input: Payload, preset: PresetData, options: Options, k: string, v: string)
    ensures var fs := FormFields(input, preset, options);
      && |fs| >= 4
      && fs[0] == Field("file", FileValue(FileToSend(input)))
      && fs[1].name == "h" && fs[2].name == "clahe" && fs[3].name == "sharp"
      && fs[1] == Field("h", TextValue(OrDefault(options.h, ActivePresetValues(preset).h)))
      && fs[2] == Field("clahe", TextValue(OrDefault(options.clahe, ActivePresetValues(preset).clahe)))
      && fs[3] == Field("sharp", TextValue(OrDefault(options.sharp, ActivePresetValues(preset).sharp)))
      && fs[1].value.TextValue? && fs[1].value.text != ""
      && fs[2].value.TextValue? && fs[2].value.text != ""
      && fs[3].value.TextValue? && fs[3].value.text != ""
      && (Truthy(options.op) ==> |fs| >= 5 && fs[4] == Field("op", TextValue(options.op.value)))
      && var tail := fs[if Truthy(options.op) then 5 else 4..];
         (Field(k, TextValue(v)) in tail <==>
          options.params.Some? && exists j :: 0 <= j < |options.params.value| && options.params.value[j] == (k, Some(v)))
  {
    var fs := FormFields(input, preset, options);
    var n := if Truthy(options.op) then 5 else 4;
    var tail := if options.params.Some? then NonNullParams(options.params.value) else [];
    assert fs[n..] == tail;
    if options.params.Some? {
      NonNullParamsExact(options.params.value, k, v);
    }
  }

  /** `callRestoreAPI`'s form composition, appending one entry at a time. */
  method ComposeForm(input: Payload, preset: PresetData, options: Options) returns (form: seq<Field>)
    ensures form == FormFields(input, preset, options)
  {
    form := [Field("file", FileValue(FileToSend(input)))];
    var pv := ActivePresetValues(preset);
    form := form + [Field("h", TextValue(OrDefault(options.h, pv.h)))];
    form := form + [Field("clahe", TextValue(OrDefault(options.clahe, pv.clahe)))];
    form := form + [Field("sharp", TextValue(OrDefault(options.sharp, pv.sharp)))];
    assert form == FixedFields(input, preset, options);
    if Truthy(options.op) {
      form := form + [Field("op", TextValue(options.op.value))];
    }
    ghost var head := form;
    assert head == FixedFields(input, preset, options) + OpField(options);
    if options.params.Some? {
      var entries := options.params.value;
      var i := 0;
      while i < |entries|
        invariant 0 <= i <= |entries|
        invariant form == head + NonNullParams(entries[..i])
      {
        var (key, value) := entries[i];
        if value.Some? {
          form := form + [Field(key, TextValue(value.value))];
        }
        assert entries[..i + 1][..i] == entries[..i];
        i := i + 1;
      }
      assert entries[..i] == entries;
    }
  }

  /** The value of the range input with the given element id, or null. */
  function ControlValue(controls: Controls, id: string): Option<string> {
    if id in controls then Some(controls[id]) else None
  }

  /** The parameter keys the operations panel sends for each operation. */
  function OpParamKeys(op: string): seq<string> {
    if op == "denoise" then ["h"]
    else if op == "clahe" then ["clahe"]
    else if op == "unsharp" || op == "sharpen" then ["sharp"]
    else if op == "brightness" then ["brightness", "contrast"]
    else if op == "bilateral" then ["sigmaColor", "sigmaSpace"]
    else []
  }

  /** Which control each parameter key is read from. `sharp` prefers the
      sharpen slider and falls back to the unsharp amount slider. */
  function ParamSource(controls: Controls, key: string): Option<string> {
    if key == "h" then ControlValue(controls, "param-h")
    else if key == "clahe" then ControlValue(controls, "param-clip")
    else if key == "sharp" then Or(ControlValue(controls, "param-strength"), ControlValue(controls, "param-amount"))
    else if key == "brightness" then ControlValue(controls, "param-bright")
    else if key == "contrast" then ControlValue(controls, "param-contrast")
    else if key == "sigmaColor" then ControlValue(controls, "param-sigmaColor")
    else if key == "sigmaSpace" then ControlValue(controls, "param-sigmaSpace")
    else None
  }

  /** The parameter map for an operation: its keys, in order, each with the
      value of its control. */
  function ParamsFor(op: string, controls: Controls): (ps: Params)
    ensures |ps| == |OpParamKeys(op)|
    ensures forall j :: 0 <= j < |ps| ==> ps[j] == (OpParamKeys(op)[j], ParamSource(controls, OpParamKeys(op)[j]))
  {
    var keys := OpParamKeys(op);
    seq(|keys|, j requires 0 <= j < |keys| => (keys[j], ParamSource(controls, keys[j])))
  }

  /** The parameter map is rebuilt from the selected operation alone: a key
      of one operation never appears in the map of an operation that does
      not declare it, whatever was selected before. */
  lemma ParamsOnlyForSelectedOp(op: string, controls: Controls, j: int)
    requires 0 <= j < |ParamsFor(op, controls)|
    ensures var key := ParamsFor(op, controls)[j].0;
      && (key == "h" ==> op == "denoise")
      && (key == "clahe" ==> op == "clahe")
      && (key == "sharp" ==> op == "unsharp" || op == "sharpen")
      && (key == "brightness" || key == "contrast" ==> op == "brightness")
      && (key == "sigmaColor" || key == "sigmaSpace" ==> op == "bilateral")
      && key in ["h", "clahe", "sharp", "brightness", "contrast", "sigmaColor", "sigmaSpace"]
  {
  }

  /** The apply handler's parameter object, filled one field at a time. */
  method BuildParams(op: string, controls: Controls) returns (params: Params)
    ensures params == ParamsFor(op, controls)
  {
    params := [];
    if op == "denoise" {
      params := params + [("h", ControlValue(controls, "param-h"))];
    }
    if op == "clahe" {
      params := params + [("clahe", ControlValue(controls, "param-clip"))];
    }
    if op == "unsharp" || op == "sharpen" {
      params := params + [("sharp", Or(ControlValue(controls, "param-strength"), ControlValue(controls, "param-amount")))];
    }
    if op == "brightness" {
      params := params + [("brightness", ControlValue(controls, "param-bright"))];
      params := params + [("contrast", ControlValue(controls, "param-contrast"))];
    }
    if op == "bilateral" {
      params := params + [("sigmaColor", ControlValue(controls, "param-sigmaColor"))];
      params := params + [("sigmaSpace", ControlValue(controls, "param-sigmaSpace"))];
    }
  }

  /** The end of `callRestoreAPI`: a 2xx response yields its body; a
      non-2xx response raises with its body text, or "Server error" when the
      body is empty; a rejected `fetch` raises with its own message. */
  function CallOutcome(res: Response): (r: Result<Bytes, string>)
    ensures r.Ok? <==> res.HttpOk?
    ensures res.HttpOk? ==> r.value == res.blob
    ensures res.HttpFailure? ==> r.error != ""
    ensures res.HttpFailure? && res.text != "" ==> r.error == res.text
    ensures res.HttpFailure? && res.text == "" ==> r.error == "Server error"
    ensures res.Unreachable? ==> r.error == res.message
  {
    match res
    case HttpOk(blob) => Ok(blob)
    case HttpFailure(text) => Err(if text != "" then text else "Server error")
    case Unreachable(message) => Err(message)
  }
}
