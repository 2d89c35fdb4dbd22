/**
 * An object detector's model settings: the merged label map, the attribute
 * label sets, the colour map of trackable labels, and the field rewrites
 * applied from a Frigate+ model's info.
 */
module DetectorConfig {
  import opened Wrappers
  import Text

  datatype PixelFormat = Rgb | Bgr | Yuv

  datatype InputTensor = Nchw | Nhwc | Hwnc | Hwcn

  datatype InputDType = Float | FloatDenorm | IntType

  datatype ModelType = Dfine | Rfdetr | Ssd | Yolox | Yolonas | YoloGeneric

  /** `PixelFormatEnum(s)`: the member with that value, or a `ValueError`. */
  function ParsePixelFormat(s: string): (r: Result<PixelFormat>)
    ensures r.Ok? <==> s in ["rgb", "bgr", "yuv"]
    ensures r == Ok(Rgb) <==> s == "rgb"
  {
    if s == "rgb" then Ok(Rgb)
    else if s == "bgr" then Ok(Bgr)
    else if s == "yuv" then Ok(Yuv)
    else Err("'" + s + "' is not a valid PixelFormatEnum")
  }

  /** `InputTensorEnum(s)`: the member with that value, or a `ValueError`. */
  function ParseInputTensor(s: string): (r: Result<InputTensor>)
    ensures r.Ok? <==> s in ["nchw", "nhwc", "hwnc", "hwcn"]
    ensures r == Ok(Nhwc) <==> s == "nhwc"
  {
    if s == "nchw" then Ok(Nchw)
    else if s == "nhwc" then Ok(Nhwc)
    else if s == "hwnc" then Ok(Hwnc)
    else if s == "hwcn" then Ok(Hwcn)
    else Err("'" + s + "' is not a valid InputTensorEnum")
  }

  /** `InputDTypeEnum(s)`: the member with that value, or a `ValueError`. */
  function ParseInputDType(s: string): (r: Result<InputDType>)
    ensures r.Ok? <==> s in ["float", "float_denorm", "int"]
  {
    if s == "float" then Ok(Float)
    else if s == "float_denorm" then Ok(FloatDenorm)
    else if s == "int" then Ok(IntType)
    else Err("'" + s + "' is not a valid InputDTypeEnum")
  }

  /** `ModelTypeEnum(s)`: the member with that value, or a `ValueError`. */
  function ParseModelType(s: string): (r: Result<ModelType>)
    ensures r.Ok? <==> s in ["dfine", "rfdetr", "ssd", "yolox", "yolonas", "yolo-generic"]
  {
    if s == "dfine" then Ok(Dfine)
    else if s == "rfdetr" then Ok(Rfdetr)
    else if s == "ssd" then Ok(Ssd)
    else if s == "yolox" then Ok(Yolox)
    else if s == "yolonas" then Ok(Yolonas)
    else if s == "yolo-generic" then Ok(YoloGeneric)
    else Err("'" + s + "' is not a valid ModelTypeEnum")
  }

  /** Attribute labels that are not drawn as logos. */
  const NonLogoAttributes: set<string> := {"face", "license_plate"}

  /** The union of the attribute lists of every object label. */
  function AttributesOf(attributesMap: map<string, seq<string>>): set<string> {
    set k, a | k in attributesMap && a in attributesMap[k] :: a
  }

  /** The attribute labels of the object labels in `keys` only. */
  function AttributesOfKeys(attributesMap: map<string, seq<string>>, keys: set<string>): set<string> {
    set k, a | k in keys && k in attributesMap && a in attributesMap[k] :: a
  }

  /** The label-map path: the value given, or the default "/labelmap.txt" when the key is absent. */
  function LabelmapPath(given: Option<Option<string>>): (r: Option<string>)
    ensures given.None? ==> r == Some("/labelmap.txt")
    ensures given.Some? ==> r == given.value
  {
    match given
    case None => Some("/labelmap.txt")
    case Some(p) => p
  }

  /** `os.path.join(dir, name)` for two parts. */
  function PathJoin(dir: string, name: string): (r: string)
    ensures Text.StartsWith(name, "/") ==> r == name
    ensures !Text.StartsWith(name, "/") && dir != "" && dir[|dir| - 1] != '/' ==> r == dir + "/" + name
    ensures Text.EndsWith(r, name)
  {
    if Text.StartsWith(name, "/") then name
    else if dir == "" || dir[|dir| - 1] == '/' then dir + name
    else dir + "/" + name
  }

  /**
   * Every key converted to an integer, with `toInt` standing
   * for `int()` on a string: later entries win, and a key that is not an
   * integer is a `ValueError`.
   */
  function LabelMapFromInfo(entries: seq<(string, string)>, toInt: string -> Option<int>): Result<map<int, string>>
  {
    if entries == [] then Ok(map[])
    else
      var (key, val) := entries[|entries| - 1];
      match LabelMapFromInfo(entries[..|entries| - 1], toInt)
      case Err(e) => Err(e)
      case Ok(m) =>
        match toInt(key)
        case None => Err("invalid literal for int() with base 10: '" + key + "'")
        case Some(i) => Ok(m[i := val])
  }

  /** The conversion succeeds exactly when every key is an integer. */
  lemma {:induction false} LabelMapFromInfoOk(entries: seq<(string, string)>, toInt: string -> Option<int>)
    ensures LabelMapFromInfo(entries, toInt).Ok? <==> forall j :: 0 <= j < |entries| ==> toInt(entries[j].0).Some?
  {
    if entries != [] {
      var init := entries[..|entries| - 1];
      LabelMapFromInfoOk(init, toInt);
      assert forall j :: 0 <= j < |init| ==> init[j] == entries[j];
      assert entries == init + [entries[|entries| - 1]];
    }
  }

  /** Every entry's key is in the converted map, and each key holds the value of the last entry with that key. */
  lemma {:induction false} LabelMapFromInfoLastWins(entries: seq<(string, string)>, toInt: string -> Option<int>)
    requires LabelMapFromInfo(entries, toInt).Ok?
    ensures forall j :: 0 <= j < |entries| ==> toInt(entries[j].0).Some? && toInt(entries[j].0).value in LabelMapFromInfo(entries, toInt).value
    ensures forall i :: i in LabelMapFromInfo(entries, toInt).value ==> LastWithKey(entries, toInt, i, LabelMapFromInfo(entries, toInt).value[i])
  {
    if entries != [] {
      var init := entries[..|entries| - 1];
      var (key, val) := entries[|entries| - 1];
      LabelMapFromInfoLastWins(init, toInt);
      var m := LabelMapFromInfo(init, toInt).value;
      var i := toInt(key).value;
      var m' := LabelMapFromInfo(entries, toInt).value;
      assert m' == m[i := val];
      assert forall j :: 0 <= j < |init| ==> init[j] == entries[j];
      forall i' | i' in m' ensures LastWithKey(entries, toInt, i', m'[i']) {
        if i' == i {
          LastEntryWins(entries, toInt);
        } else {
          LastWithKeyExtend(init, entries[|entries| - 1], toInt, i', m[i']);
          assert init + [entries[|entries| - 1]] == entries;
        }
      }
    }
  }

  /** The last entry is the last one with its own key. */
  lemma LastEntryWins(entries: seq<(string, string)>, toInt: string -> Option<int>)
    requires entries != [] && toInt(entries[|entries| - 1].0).Some?
    ensures LastWithKey(entries, toInt, toInt(entries[|entries| - 1].0).value, entries[|entries| - 1].1)
  {
    var j := |entries| - 1;
    assert 0 <= j < |entries| && toInt(entries[j].0) == Some(toInt(entries[|entries| - 1].0).value) && entries[j].1 == entries[|entries| - 1].1;
  }

  /** An entry with another key keeps the last entry with key `i` the last. */
  lemma LastWithKeyExtend(init: seq<(string, string)>, last: (string, string), toInt: string -> Option<int>, i: int, v: string)
    requires LastWithKey(init, toInt, i, v) && toInt(last.0) != Some(i)
    ensures LastWithKey(init + [last], toInt, i, v)
  {
    var entries := init + [last];
    var j :| 0 <= j < |init| && toInt(init[j].0) == Some(i) && init[j].1 == v
            && forall j' :: j < j' < |init| ==> toInt(init[j'].0) != Some(i);
    assert entries[j] == init[j];
    assert forall j' :: j < j' < |entries| ==> toInt(entries[j'].0) != Some(i) by {
      forall j' | j < j' < |entries| ensures toInt(entries[j'].0) != Some(i) {
        if j' < |init| {
          assert entries[j'] == init[j'];
        }
      }
    }
  }

  /** Some entry's key converts to `i` with value `v`, and no later entry's key converts to `i`. */
  predicate LastWithKey(entries: seq<(string, string)>, toInt: string -> Option<int>, i: int, v: string) {
    exists j :: 0 <= j < |entries| && toInt(entries[j].0) == Some(i) && entries[j].1 == v
      && forall j' :: j < j' < |entries| ==> toInt(entries[j'].0) != Some(i)
  }

  /** The parts of a downloaded model's info file that the settings read. */
  datatype ModelInfo = ModelInfo(
    supportedDetectors: seq<string>,
    width: int,
    height: int,
    inputShape: string,
    pixelFormat: string,
    modelType: string,
    inputDataType: Option<string>,
    attributes: Option<map<string, seq<string>>>,
    labelMap: seq<(string, string)>)

  /** The fields of `ModelConfig` that loading a model rewrites. */
  datatype ModelFields = ModelFields(
    path: Option<string>,
    width: int,
    height: int,
    labelmap: map<int, string>,
    attributesMap: map<string, seq<string>>,
    inputTensor: InputTensor,
    pixelFormat: PixelFormat,
    inputDtype: InputDType,
    modelType: ModelType,
    mergedLabelmap: map<int, string>,
    allAttributes: set<string>,
    allAttributeLogos: set<string>)

  const PlusPrefix := "plus://"

  /** A model path served by Frigate+. */
  predicate IsPlusPath(path: Option<string>) {
    path.Some? && path.value != "" && Text.StartsWith(path.value, PlusPrefix)
  }

  /** A non-empty string. */
  predicate IsSet(s: Option<string>) {
    s.Some? && s.value != ""
  }

  /**
   * `check_and_load_plus_model` from a given model info: the new fields and
   * the error raised, if any. Each error leaves the fields as the steps before
   * it wrote them.
   */
  function LoadPlusModel(f: ModelFields, detector: Option<string>, cacheDir: string, info: ModelInfo,
                         defaultAttributes: map<string, seq<string>>): (ModelFields, Option<string>)
  {
    if !IsPlusPath(f.path) then (f, None)
    else
      var f1 := f.(path := Some(PathJoin(cacheDir, f.path.value[|PlusPrefix|..])));
      if IsSet(detector) && detector.value !in info.supportedDetectors then
        (f1, Some("Model does not support detector type of " + detector.value))
      else
        var (f2, error) := ApplyShape(f1, info);
        if error.Some? then (f2, error) else ApplyLabels(f2, detector, info, defaultAttributes)
  }

  /**
   * The size and the enumerations read from the info, in the order they are
   * assigned; the first value that is not a member of its enumeration stops
   * the load. The input data type is read only when the info gives one.
   */
  function ApplyShape(f: ModelFields, info: ModelInfo): (r: (ModelFields, Option<string>))
    ensures r.0 == f.(width := r.0.width, height := r.0.height, inputTensor := r.0.inputTensor, pixelFormat := r.0.pixelFormat,
                      modelType := r.0.modelType, inputDtype := r.0.inputDtype)
  {
    var f2 := f.(width := info.width, height := info.height);
    match ParseInputTensor(info.inputShape)
    case Err(e) => (f2, Some(e))
    case Ok(tensor) =>
      var f3 := f2.(inputTensor := tensor);
      match ParsePixelFormat(info.pixelFormat)
      case Err(e) => (f3, Some(e))
      case Ok(pixel) =>
        var f4 := f3.(pixelFormat := pixel);
        match ParseModelType(info.modelType)
        case Err(e) => (f4, Some(e))
        case Ok(kind) =>
          var f5 := f4.(modelType := kind);
          if !IsSet(info.inputDataType) then (f5, None)
          else match ParseInputDType(info.inputDataType.value)
            case Err(e) => (f5, Some(e))
            case Ok(dtype) => (f5.(inputDtype := dtype), None)
  }

  /**
   * The NHWC override for rknn, the attribute map merged over the model's
   * (or the default) one with its attribute sets, and the label map merged
   * over the model's labels.
   */
  function ApplyLabels(f: ModelFields, detector: Option<string>, info: ModelInfo,
                       defaultAttributes: map<string, seq<string>>): (r: (ModelFields, Option<string>))
    ensures r.0 == f.(inputTensor := r.0.inputTensor, attributesMap := r.0.attributesMap, allAttributes := r.0.allAttributes,
                      allAttributeLogos := r.0.allAttributeLogos, mergedLabelmap := r.0.mergedLabelmap)
  {
    var attributes := info.attributes.GetOr(defaultAttributes) + f.attributesMap;
    var unique := AttributesOf(attributes);
    var g := f.(inputTensor := if detector == Some("rknn") then Nhwc else f.inputTensor,
                attributesMap := attributes, allAttributes := unique, allAttributeLogos := unique - NonLogoAttributes);
    match LabelMapFromInfo(info.labelMap, Text.ParseInt)
    case Err(e) => (g, Some(e))
    case Ok(labels) => (g.(mergedLabelmap := labels + f.labelmap), None)
  }

  /** A path that is not a Frigate+ path is left alone, and nothing else changes either. */
  lemma NotPlusUnchanged(f: ModelFields, detector: Option<string>, cacheDir: string, info: ModelInfo, defaultAttributes: map<string, seq<string>>)
    requires !IsPlusPath(f.path)
    ensures LoadPlusModel(f, detector, cacheDir, info, defaultAttributes) == (f, None)
  {
  }

  /**
   * A Frigate+ path becomes the model id (the text after "plus://") inside
   * the cache directory, and a detector the model does not list is refused
   * with nothing else changed.
   */
  lemma PlusPathRewritten(f: ModelFields, detector: Option<string>, cacheDir: string, info: ModelInfo, defaultAttributes: map<string, seq<string>>)
    requires IsPlusPath(f.path)
    ensures var (g, _) := LoadPlusModel(f, detector, cacheDir, info, defaultAttributes);
      && g.path == Some(PathJoin(cacheDir, f.path.value[7..]))
      && Text.EndsWith(g.path.value, f.path.value[7..])
    ensures IsSet(detector) && detector.value !in info.supportedDetectors ==>
      LoadPlusModel(f, detector, cacheDir, info, defaultAttributes)
        == (f.(path := Some(PathJoin(cacheDir, f.path.value[7..]))), Some("Model does not support detector type of " + detector.value))
  {
    assert |PlusPrefix| == 7;
  }

  /**
   * A load that succeeds takes the size, pixel format and model type from the
   * info, forces NHWC for the rknn detector, lets the configured attribute
   * lists override the model's (or the default) ones, recomputes the
   * attribute sets from the merged map, and lets the configured label map
   * override the model's integer-keyed labels.
   */
  lemma LoadedFields(f: ModelFields, detector: Option<string>, cacheDir: string, info: ModelInfo, defaultAttributes: map<string, seq<string>>)
    requires IsPlusPath(f.path)
    requires LoadPlusModel(f, detector, cacheDir, info, defaultAttributes).1.None?
    ensures var g := LoadPlusModel(f, detector, cacheDir, info, defaultAttributes).0;
      var modelAttributes := info.attributes.GetOr(defaultAttributes);
      && g.width == info.width && g.height == info.height
      && ParsePixelFormat(info.pixelFormat) == Ok(g.pixelFormat)
      && ParseModelType(info.modelType) == Ok(g.modelType)
      && (detector == Some("rknn") ==> g.inputTensor == Nhwc)
      && (detector != Some("rknn") ==> ParseInputTensor(info.inputShape) == Ok(g.inputTensor))
      && (!IsSet(info.inputDataType) ==> g.inputDtype == f.inputDtype)
      && g.attributesMap.Keys == modelAttributes.Keys + f.attributesMap.Keys
      && (forall k :: k in f.attributesMap ==> g.attributesMap[k] == f.attributesMap[k])
      && (forall k :: k in modelAttributes && k !in f.attributesMap ==> g.attributesMap[k] == modelAttributes[k])
      && g.allAttributes == AttributesOf(g.attributesMap)
      && g.allAttributeLogos == g.allAttributes - NonLogoAttributes
      && LabelMapFromInfo(info.labelMap, Text.ParseInt).Ok?
      && (forall i :: i in f.labelmap ==> i in g.mergedLabelmap && g.mergedLabelmap[i] == f.labelmap[i])
      && (forall i :: i in LabelMapFromInfo(info.labelMap, Text.ParseInt).value && i !in f.labelmap ==>
            g.mergedLabelmap[i] == LabelMapFromInfo(info.labelMap, Text.ParseInt).value[i])
      && g.mergedLabelmap.Keys == LabelMapFromInfo(info.labelMap, Text.ParseInt).value.Keys + f.labelmap.Keys
  {
  }

  /** An attribute label is collected exactly when some object label lists it; logos are those other than face and license plate. */
  lemma AttributesExactly(attributesMap: map<string, seq<string>>, a: string)
    ensures a in AttributesOf(attributesMap) <==> exists k :: k in attributesMap && a in attributesMap[k]
    ensures a in AttributesOf(attributesMap) - NonLogoAttributes <==> a in AttributesOf(attributesMap) && a != "face" && a != "license_plate"
  {
  }

  /** One colour in the palette's RGB form. */
  type Colour = (int, int, int)

  /** `ModelConfig`: the settings with the label map and attribute sets derived from them. */
  class ModelConfig {
    var path: Option<string>
    var width: int
    var height: int
    var labelmap: map<int, string>
    var attributesMap: map<string, seq<string>>
    var inputTensor: InputTensor
    var pixelFormat: PixelFormat
    var inputDtype: InputDType
    var modelType: ModelType
    var mergedLabelmap: map<int, string>
    var allAttributes: set<string>
    var allAttributeLogos: set<string>
    var colormap: map<string, Colour>

    /** The fields that model loading reads and writes. */
    function Fields(): ModelFields
      reads this
    {
      ModelFields(path, width, height, labelmap, attributesMap, inputTensor, pixelFormat, inputDtype, modelType,
                  mergedLabelmap, allAttributes, allAttributeLogos)
    }

    /**
     * `__init__`: the label file's labels overridden by the configured label
     * map, every attribute label of the attribute map, those attribute labels
     * that are drawn as logos, and an empty colour map. `loadLabels` stands
     * for reading a label file.
     */
    constructor (path: Option<string>, labelmapPath: Option<Option<string>>, loadLabels: Option<string> -> map<int, string>,
                 labelmap: map<int, string>, attributesMap: map<string, seq<string>>, width: int, height: int,
                 inputTensor: InputTensor, pixelFormat: PixelFormat, inputDtype: InputDType, modelType: ModelType)
      ensures Fields() == ModelFields(path, width, height, labelmap, attributesMap, inputTensor, pixelFormat, inputDtype, modelType,
                                      loadLabels(LabelmapPath(labelmapPath)) + labelmap,
                                      AttributesOf(attributesMap), AttributesOf(attributesMap) - NonLogoAttributes)
      ensures colormap == map[]
    {
      this.path := path;
      this.width := width;
      this.height := height;
      this.labelmap := labelmap;
      this.attributesMap := attributesMap;
      this.inputTensor := inputTensor;
      this.pixelFormat := pixelFormat;
      this.inputDtype := inputDtype;
      this.modelType := modelType;
      mergedLabelmap := loadLabels(LabelmapPath(labelmapPath)) + labelmap;
      colormap := map[];
      var unique := CollectAttributes(attributesMap);
      allAttributes := unique;
      allAttributeLogos := unique - NonLogoAttributes;
    }

    /** `create_colormap`: one palette colour for each enabled label that is not an attribute, in the set's iteration order. */
    method CreateColormap(enabled: set<string>, palette: nat -> seq<Colour>)
      modifies this
      ensures Fields() == old(Fields())
      ensures colormap.Keys <= enabled - allAttributes
      ensures |palette(|enabled - allAttributes|)| >= |enabled - allAttributes| ==> colormap.Keys == enabled - allAttributes
      ensures forall l :: l in colormap ==> colormap[l] in palette(|enabled - allAttributes|)
      ensures (forall i, j :: 0 <= i < j < |palette(|enabled - allAttributes|)| ==>
                 palette(|enabled - allAttributes|)[i] != palette(|enabled - allAttributes|)[j]) ==>
              forall l, l' :: l in colormap && l' in colormap && l != l' ==> colormap[l] != colormap[l']
    {
      var trackable := enabled - allAttributes;
      var colors := palette(|trackable|);
      var todo := trackable;
      var m: map<string, Colour> := map[];
      var i := 0;
      ghost var order: seq<string> := [];
      while todo != {} && i < |colors|
        invariant i == |order|
        invariant todo <= trackable
        invariant m.Keys == trackable - todo
        invariant |todo| + |order| == |trackable|
        invariant |order| <= |colors|
        invariant forall j :: 0 <= j < |order| ==> order[j] in m && m[order[j]] == colors[j]
        invariant forall l :: l in m ==> exists j :: 0 <= j < |order| && order[j] == l
        decreases todo
      {
        var l :| l in todo;
        m := m[l := colors[i]];
        order := order + [l];
        i := i + 1;
        todo := todo - {l};
      }
      colormap := m;
    }

    /** The attribute labels of every object label, gathered one list at a time. */
    static method CollectAttributes(attributesMap: map<string, seq<string>>) returns (unique: set<string>)
      ensures unique == AttributesOf(attributesMap)
    {
      unique := {};
      var todo := attributesMap.Keys;
      while todo != {}
        invariant todo <= attributesMap.Keys
        invariant unique == AttributesOfKeys(attributesMap, attributesMap.Keys - todo)
        decreases todo
      {
        var k :| k in todo;
        unique := unique + set a | a in attributesMap[k];
        todo := todo - {k};
      }
    }

    /**
     * `check_and_load_plus_model` with the model info already fetched: the
     * fields become those `LoadPlusModel` computes, step by step, and the
     * colour map is untouched.
     */
    method CheckAndLoadPlusModel(detector: Option<string>, cacheDir: string, info: ModelInfo,
                                 defaultAttributes: map<string, seq<string>>) returns (error: Option<string>)
      modifies this
      ensures (Fields(), error) == LoadPlusModel(old(Fields()), detector, cacheDir, info, defaultAttributes)
      ensures colormap == old(colormap)
    {
      if !IsPlusPath(path) {
        return None;
      }
      var modelId := path.value[|PlusPrefix|..];
      path := Some(PathJoin(cacheDir, modelId));
      if IsSet(detector) && detector.value !in info.supportedDetectors {
        return Some("Model does not support detector type of " + detector.value);
      }
      error := LoadShape(info);
      if error.Some? {
        return;
      }
      error := LoadLabels(detector, info, defaultAttributes);
    }

    /** Width, height and the enumerations, as `ApplyShape` computes them. */
    method LoadShape(info: ModelInfo) returns (error: Option<string>)
      modifies this
      ensures (Fields(), error) == ApplyShape(old(Fields()), info)
      ensures colormap == old(colormap)
    {
      width := info.width;
      height := info.height;
      var tensor := ParseInputTensor(info.inputShape);
      if tensor.Err? {
        return Some(tensor.error);
      }
      inputTensor := tensor.value;
      var pixel := ParsePixelFormat(info.pixelFormat);
      if pixel.Err? {
        return Some(pixel.error);
      }
      pixelFormat := pixel.value;
      var kind := ParseModelType(info.modelType);
      if kind.Err? {
        return Some(kind.error);
      }
      modelType := kind.value;
      if IsSet(info.inputDataType) {
        var dtype := ParseInputDType(info.inputDataType.value);
        if dtype.Err? {
          return Some(dtype.error);
        }
        inputDtype := dtype.value;
      }
      return None;
    }

    /** The rknn override, the attribute sets and the merged label map, as `ApplyLabels` computes them. */
    method LoadLabels(detector: Option<string>, info: ModelInfo, defaultAttributes: map<string, seq<string>>)
      returns (error: Option<string>)
      modifies this
      ensures (Fields(), error) == ApplyLabels(old(Fields()), detector, info, defaultAttributes)
      ensures colormap == old(colormap)
    {
      if detector == Some("rknn") {
        inputTensor := Nhwc;
      }
      attributesMap := info.attributes.GetOr(defaultAttributes) + attributesMap;
      var unique := CollectAttributes(attributesMap);
      allAttributes := unique;
      allAttributeLogos := unique - NonLogoAttributes;
      var labels := LabelMapFromInfo(info.labelMap, Text.ParseInt);
      if labels.Err? {
        return Some(labels.error);
      }
      mergedLabelmap := labels.value + labelmap;
      return None;
    }
  }
}
