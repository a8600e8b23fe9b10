/**
 * SceneLoader::load: reads a scene document (settings, the camera's
 * transform, point lights and game objects with their models) into the
 * application's outputs. The XML document is an element tree; what the
 * text of an attribute converts to (bool, int, float) is part of the tree,
 * as the parser reports it.
 */
module SceneLoader {
  import opened VkTypes
  import Device
  import Mesh
  import Model
  import Lighting
  import opened GameObject

  /** An attribute's text and what tinyxml2's conversions make of it (None: it does not convert). */
  datatype Attr = Attr(text: string, asBool: Option<bool>, asInt: Option<int>, asFloat: Option<real>)

  datatype Element = Element(name: string, attributes: map<string, Attr>, children: seq<Element>)

  /** SceneSettings: automatic camera, SSAO and debug view. */
  datatype SceneSettings = SceneSettings(autoCamera: bool, ssaoEnabled: bool, debugMode: int)

  /** `SceneSettings{}`. */
  const DEFAULT_SETTINGS := SceneSettings(true, true, 0)

  const ZERO := Vec3(0.0, 0.0, 0.0)
  const ONE := Vec3(1.0, 1.0, 1.0)
  /** The camera's fallback translation coordinates. */
  const CAMERA_TRANSLATION_DEFAULT := Vec3(0.0, -2.0, -5.0)

  // Queries on the element tree, as tinyxml2 answers them

  /** FirstChildElement(name): the first element of the list with the name. */
  function FirstChild(es: seq<Element>, name: string): (r: Option<Element>)
    ensures r.None? <==> forall k :: 0 <= k < |es| ==> es[k].name != name
    ensures r.Some? ==>
      (exists k :: 0 <= k < |es| && es[k] == r.value && es[k].name == name
         && forall j :: 0 <= j < k ==> es[j].name != name)
  {
    if es == [] then None
    else if es[0].name == name then Some(es[0])
    else
      var r := FirstChild(es[1..], name);
      assert forall k :: 1 <= k < |es| ==> es[k] == es[1..][k - 1];
      r
  }

  /** The FirstChildElement / NextSiblingElement chain for a name: its elements, in document order. */
  function Named(es: seq<Element>, name: string): (r: seq<Element>)
    ensures forall e :: e in r <==> e in es && e.name == name
  {
    if es == [] then []
    else
      var init := es[..|es| - 1];
      assert es == init + [es[|es| - 1]];
      Named(init, name) + (if es[|es| - 1].name == name then [es[|es| - 1]] else [])
  }

  function Attribute(e: Element, name: string): Option<string>
  {
    if name in e.attributes then Some(e.attributes[name].text) else None
  }

  /** BoolAttribute(name, default): the converted value, or the default when missing or not a bool. */
  function BoolAttribute(e: Element, name: string, default: bool): bool
  {
    if name in e.attributes && e.attributes[name].asBool.Some? then e.attributes[name].asBool.value else default
  }

  function IntAttribute(e: Element, name: string, default: int): int
  {
    if name in e.attributes && e.attributes[name].asInt.Some? then e.attributes[name].asInt.value else default
  }

  function FloatAttribute(e: Element, name: string, default: real): real
  {
    if name in e.attributes && e.attributes[name].asFloat.Some? then e.attributes[name].asFloat.value else default
  }

  /** A value read from the attribute: what its text converts to, or the fallback when it is missing or does not convert. */
  predicate Takes(e: Element, name: string, value: real, fallback: real)
  {
    if name in e.attributes && e.attributes[name].asFloat.Some? then value == e.attributes[name].asFloat.value
    else value == fallback
  }

  /** Each of x, y and z read from its attribute, with its own fallback. */
  predicate CoordsFrom(e: Element, v: Vec3, fallback: Vec3)
  {
    Takes(e, "x", v.x, fallback.x) && Takes(e, "y", v.y, fallback.y) && Takes(e, "z", v.z, fallback.z)
  }

  /** The x, y and z attributes, each with its own fallback. */
  function XYZ(e: Element, default: Vec3): Vec3
  {
    Vec3(FloatAttribute(e, "x", default.x), FloatAttribute(e, "y", default.y), FloatAttribute(e, "z", default.z))
  }

  /** The r, g and b attributes, each with its own fallback. */
  function RGB(e: Element, default: Vec3): Vec3
  {
    Vec3(FloatAttribute(e, "r", default.x), FloatAttribute(e, "g", default.y), FloatAttribute(e, "b", default.z))
  }

  /** The document's Scene element (None: the file did not load, or has none). */
  function FindScene(doc: Option<seq<Element>>): Option<Element>
  {
    if doc.None? then None else FirstChild(doc.value, "Scene")
  }

  // Settings

  /** A flag read from the attribute: its converted value, or the fallback when it is missing or not a bool. */
  function Converted(e: Element, name: string, fallback: bool): (b: bool)
    ensures name in e.attributes && e.attributes[name].asBool.Some? ==> b == e.attributes[name].asBool.value
    ensures !(name in e.attributes && e.attributes[name].asBool.Some?) ==> b == fallback
  {
    BoolAttribute(e, name, fallback)
  }

  /**
   * The settings after load: each field is overwritten only when its element
   * is in the Settings element, and then with the attribute or, when that is
   * missing, with the field's default.
   */
  function SettingsFrom(scene: Element, s: SceneSettings): (r: SceneSettings)
    ensures FirstChild(scene.children, "Settings").None? ==> r == s
    ensures FirstChild(scene.children, "Settings").Some? ==>
      (var st := FirstChild(scene.children, "Settings").value.children;
       (FirstChild(st, "AutoCamera").None? ==> r.autoCamera == s.autoCamera)
       && (FirstChild(st, "SSAO").None? ==> r.ssaoEnabled == s.ssaoEnabled)
       && (FirstChild(st, "DebugMode").None? ==> r.debugMode == s.debugMode)
       && (FirstChild(st, "AutoCamera").Some? ==>
             r.autoCamera == Converted(FirstChild(st, "AutoCamera").value, "enabled", DEFAULT_SETTINGS.autoCamera))
       && (FirstChild(st, "SSAO").Some? ==>
             r.ssaoEnabled == Converted(FirstChild(st, "SSAO").value, "enabled", DEFAULT_SETTINGS.ssaoEnabled))
       && (FirstChild(st, "DebugMode").Some? && "value" in FirstChild(st, "DebugMode").value.attributes
           && FirstChild(st, "DebugMode").value.attributes["value"].asInt.Some? ==>
             r.debugMode == FirstChild(st, "DebugMode").value.attributes["value"].asInt.value)
       && (FirstChild(st, "DebugMode").Some? && !("value" in FirstChild(st, "DebugMode").value.attributes
           && FirstChild(st, "DebugMode").value.attributes["value"].asInt.Some?) ==>
             r.debugMode == DEFAULT_SETTINGS.debugMode))
  {
    match FirstChild(scene.children, "Settings")
    case None => s
    case Some(settings) =>
      var autoCam := FirstChild(settings.children, "AutoCamera");
      var ssao := FirstChild(settings.children, "SSAO");
      var debug := FirstChild(settings.children, "DebugMode");
      SceneSettings(
        if autoCam.Some? then BoolAttribute(autoCam.value, "enabled", true) else s.autoCamera,
        if ssao.Some? then BoolAttribute(ssao.value, "enabled", true) else s.ssaoEnabled,
        if debug.Some? then IntAttribute(debug.value, "value", 0) else s.debugMode)
  }

  // Transforms

  /**
   * A Transform element applied to a transform: translation, rotation and
   * (when scaled) scale are each replaced only when their sub-element exists,
   * the missing coordinates taking their fallbacks.
   */
  function TransformFrom(tr: Element, t: Transform, translationDefault: Vec3, scaled: bool): (r: Transform)
    ensures !scaled ==> r.scale == t.scale
    ensures FirstChild(tr.children, "Translation").None? ==> r.translation == t.translation
    ensures FirstChild(tr.children, "Rotation").None? ==> r.rotation == t.rotation
    ensures FirstChild(tr.children, "Scale").None? ==> r.scale == t.scale
    ensures FirstChild(tr.children, "Translation").Some? ==>
      CoordsFrom(FirstChild(tr.children, "Translation").value, r.translation, translationDefault)
    ensures FirstChild(tr.children, "Rotation").Some? ==>
      CoordsFrom(FirstChild(tr.children, "Rotation").value, r.rotation, ZERO)
    ensures scaled && FirstChild(tr.children, "Scale").Some? ==>
      CoordsFrom(FirstChild(tr.children, "Scale").value, r.scale, ONE)
  {
    var translation := FirstChild(tr.children, "Translation");
    var rotation := FirstChild(tr.children, "Rotation");
    var scale := FirstChild(tr.children, "Scale");
    Transform(
      if translation.Some? then XYZ(translation.value, translationDefault) else t.translation,
      if scaled && scale.Some? then XYZ(scale.value, ONE) else t.scale,
      if rotation.Some? then XYZ(rotation.value, ZERO) else t.rotation)
  }

  /** The camera's transform after load: its Camera/Transform element applied, the scale kept. */
  function CameraTransform(scene: Element, t: Transform): (r: Transform)
    ensures r.scale == t.scale
    ensures FirstChild(scene.children, "Camera").None? ==> r == t
    ensures FirstChild(scene.children, "Camera").Some? ==>
      (var cam := FirstChild(scene.children, "Camera").value.children;
       (FirstChild(cam, "Transform").None? ==> r == t)
       && (FirstChild(cam, "Transform").Some? ==>
             (var tr := FirstChild(cam, "Transform").value.children;
              (FirstChild(tr, "Translation").None? ==> r.translation == t.translation)
              && (FirstChild(tr, "Translation").Some? ==>
                    CoordsFrom(FirstChild(tr, "Translation").value, r.translation, CAMERA_TRANSLATION_DEFAULT))
              && (FirstChild(tr, "Rotation").None? ==> r.rotation == t.rotation)
              && (FirstChild(tr, "Rotation").Some? ==> CoordsFrom(FirstChild(tr, "Rotation").value, r.rotation, ZERO)))))
  {
    match FirstChild(scene.children, "Camera")
    case None => t
    case Some(cam) =>
      match FirstChild(cam.children, "Transform")
      case None => t
      case Some(tr) => TransformFrom(tr, t, CAMERA_TRANSLATION_DEFAULT, false)
  }

  /** A loaded game object's transform: the default one with its Transform element applied. */
  function ObjectTransform(obj: Element): (r: Transform)
    ensures FirstChild(obj.children, "Transform").None? ==> r == DEFAULT_TRANSFORM
    ensures FirstChild(obj.children, "Transform").Some? ==>
      (var tr := FirstChild(obj.children, "Transform").value.children;
       (if FirstChild(tr, "Translation").Some? then CoordsFrom(FirstChild(tr, "Translation").value, r.translation, ZERO)
        else r.translation == ZERO)
       && (if FirstChild(tr, "Rotation").Some? then CoordsFrom(FirstChild(tr, "Rotation").value, r.rotation, ZERO)
           else r.rotation == ZERO)
       && (if FirstChild(tr, "Scale").Some? then CoordsFrom(FirstChild(tr, "Scale").value, r.scale, ONE)
           else r.scale == ONE))
  {
    match FirstChild(obj.children, "Transform")
    case None => DEFAULT_TRANSFORM
    case Some(tr) => TransformFrom(tr, DEFAULT_TRANSFORM, ZERO, true)
  }

  method LoadCamera(scene: Element, camera: FrgGameObject)
    modifies camera`transform
    ensures camera.transform == CameraTransform(scene, old(camera.transform))
  {
    var cam := FirstChild(scene.children, "Camera");
    if cam.Some? {
      var transform := FirstChild(cam.value.children, "Transform");
      if transform.Some? {
        var translation := FirstChild(transform.value.children, "Translation");
        if translation.Some? {
          var e := translation.value;
          camera.transform := camera.transform.(translation := camera.transform.translation.(x := FloatAttribute(e, "x", 0.0)));
          camera.transform := camera.transform.(translation := camera.transform.translation.(y := FloatAttribute(e, "y", -2.0)));
          camera.transform := camera.transform.(translation := camera.transform.translation.(z := FloatAttribute(e, "z", -5.0)));
        }
        var rotation := FirstChild(transform.value.children, "Rotation");
        if rotation.Some? {
          var e := rotation.value;
          camera.transform := camera.transform.(rotation := camera.transform.rotation.(x := FloatAttribute(e, "x", 0.0)));
          camera.transform := camera.transform.(rotation := camera.transform.rotation.(y := FloatAttribute(e, "y", 0.0)));
          camera.transform := camera.transform.(rotation := camera.transform.rotation.(z := FloatAttribute(e, "z", 0.0)));
        }
      }
    }
  }

  // Lights

  predicate IsPointLight(e: Element)
  {
    Attribute(e, "type") == Some("Point")
  }

  /**
   * The light a Point element describes: Position (default the origin),
   * Color and intensity (default white, 1), and a radius ten times the
   * intensity.
   */
  function LightOf(e: Element): (l: Lighting.PointLight)
    ensures l.radius == 10.0 * l.color.w && l.position.w == 1.0
    ensures FirstChild(e.children, "Position").None? ==> l.position == Vec4(0.0, 0.0, 0.0, 1.0)
    ensures FirstChild(e.children, "Position").Some? ==>
      CoordsFrom(FirstChild(e.children, "Position").value, Vec3(l.position.x, l.position.y, l.position.z), ZERO)
    ensures FirstChild(e.children, "Color").None? ==> l.color == Vec4(1.0, 1.0, 1.0, 1.0)
    ensures FirstChild(e.children, "Color").Some? ==>
      (var c := FirstChild(e.children, "Color").value;
       Takes(c, "r", l.color.x, 1.0) && Takes(c, "g", l.color.y, 1.0) && Takes(c, "b", l.color.z, 1.0)
       && Takes(c, "intensity", l.color.w, 1.0))
  {
    var pos := FirstChild(e.children, "Position");
    var col := FirstChild(e.children, "Color");
    var position := if pos.Some? then XYZ(pos.value, ZERO) else ZERO;
    var color := if col.Some? then RGB(col.value, ONE) else ONE;
    var intensity := if col.Some? then FloatAttribute(col.value, "intensity", 1.0) else 1.0;
    Lighting.NewPointLight(position, color, intensity, intensity * 10.0)
  }

  /** The lights the Light elements give, in document order: one per Point element, the others skipped. */
  function SceneLights(es: seq<Element>): (r: seq<Lighting.PointLight>)
    ensures |r| <= |es|
  {
    if es == [] then []
    else SceneLights(es[..|es| - 1]) + (if IsPointLight(es[|es| - 1]) then [LightOf(es[|es| - 1])] else [])
  }

  /** Every Point element gives its light, and every light comes from a Point element. */
  lemma {:induction false} SceneLightsFromPointElements(es: seq<Element>)
    ensures forall e :: e in es && IsPointLight(e) ==> LightOf(e) in SceneLights(es)
    ensures forall l :: l in SceneLights(es) ==> exists e :: e in es && IsPointLight(e) && l == LightOf(e)
  {
    if es != [] {
      var init := es[..|es| - 1];
      SceneLightsFromPointElements(init);
      assert es == init + [es[|es| - 1]];
    }
  }

  lemma SceneLightsStep(es: seq<Element>, i: nat)
    requires i < |es|
    ensures SceneLights(es[..i + 1]) == SceneLights(es[..i]) + (if IsPointLight(es[i]) then [LightOf(es[i])] else [])
  {
    assert es[..i + 1][..i] == es[..i];
  }

  /** The manager's list after addPointLight of each light in turn. */
  function AddAll(lights: seq<Lighting.PointLight>, news: seq<Lighting.PointLight>): seq<Lighting.PointLight>
  {
    if news == [] then lights
    else Lighting.WithLight(AddAll(lights, news[..|news| - 1]), news[|news| - 1])
  }

  lemma AddAllStep(lights: seq<Lighting.PointLight>, news: seq<Lighting.PointLight>, l: Lighting.PointLight)
    ensures AddAll(lights, news + [l]) == Lighting.WithLight(AddAll(lights, news), l)
  {
    assert (news + [l])[..|news|] == news;
  }

  /** Lights are taken in order until the manager holds MAX_LIGHTS; the rest are dropped. */
  lemma {:induction false} AddAllKeepsFirst(lights: seq<Lighting.PointLight>, news: seq<Lighting.PointLight>)
    requires |lights| <= Lighting.MAX_LIGHTS
    ensures AddAll(lights, news) ==
      (lights + news)[..if |lights| + |news| <= Lighting.MAX_LIGHTS then |lights| + |news| else Lighting.MAX_LIGHTS]
  {
    if news != [] {
      var init := news[..|news| - 1];
      AddAllKeepsFirst(lights, init);
      assert (lights + news)[..|lights| + |init|] == lights + init;
      if |lights| + |news| <= Lighting.MAX_LIGHTS {
        assert lights + news == (lights + init) + [news[|news| - 1]];
      }
    }
  }

  /** One Light element: a Point light is handed to the manager, any other type is skipped. */
  method LoadLight(light: Element, lights: Lighting.LightManager)
    modifies lights`pointLights
    ensures lights.pointLights ==
      if IsPointLight(light) then Lighting.WithLight(old(lights.pointLights), LightOf(light)) else old(lights.pointLights)
  {
    var kind := Attribute(light, "type");
    if kind == Some("Point") {
      var pos := ZERO;
      var color := ONE;
      var intensity := 1.0;
      var posEl := FirstChild(light.children, "Position");
      if posEl.Some? {
        pos := XYZ(posEl.value, ZERO);
      }
      var colEl := FirstChild(light.children, "Color");
      if colEl.Some? {
        color := RGB(colEl.value, ONE);
        intensity := FloatAttribute(colEl.value, "intensity", 1.0);
      }
      var radius := intensity * 10.0;
      lights.AddPointLight(pos, color, intensity, radius);
    }
  }

  method LoadLights(scene: Element, lights: Lighting.LightManager)
    modifies lights`pointLights
    ensures lights.pointLights == AddAll(old(lights.pointLights), SceneLights(Named(scene.children, "Light")))
  {
    var elements := Named(scene.children, "Light");
    ghost var start := lights.pointLights;
    var i := 0;
    while i < |elements|
      invariant i <= |elements|
      invariant lights.pointLights == AddAll(start, SceneLights(elements[..i]))
    {
      ghost var done := SceneLights(elements[..i]);
      SceneLightsStep(elements, i);
      if IsPointLight(elements[i]) {
        AddAllStep(start, done, LightOf(elements[i]));
      } else {
        assert done + [] == done;
      }
      LoadLight(elements[i], lights);
      i := i + 1;
    }
    assert elements[..i] == elements;
  }

  // Game objects

  /** What FrgModel's constructor needs to not throw: the importer's scene, complete, with every mesh loading. */
  predicate ModelLoads(scene: Option<Model.AiScene>, loads: string -> bool)
  {
    scene.Some? && !scene.value.incomplete && scene.value.root.Some?
    && Model.AllMeshesLoad(scene.value, Model.Flatten(scene.value.root.value), loads)
  }

  /** What the importer guarantees of every scene it returns. */
  ghost predicate ImporterWellFormed(importer: string -> Option<Model.AiScene>)
  {
    forall p :: importer(p).Some? ==>
      Model.WellFormedScene(importer(p).value)
      && (importer(p).value.root.Some? ==> Model.RefsInRange(|importer(p).value.meshes|, importer(p).value.root.value))
  }

  /** A GameObject element that becomes an object: it names a model, and that model loads. */
  predicate Kept(e: Element, importer: string -> Option<Model.AiScene>, loads: string -> bool)
  {
    Attribute(e, "model").Some? && ModelLoads(importer(Attribute(e, "model").value), loads)
  }

  /** The GameObject elements that become objects, in document order. */
  function KeptObjects(es: seq<Element>, importer: string -> Option<Model.AiScene>, loads: string -> bool)
    : (r: seq<Element>)
    ensures |r| <= |es|
  {
    if es == [] then []
    else
      KeptObjects(es[..|es| - 1], importer, loads)
      + (if Kept(es[|es| - 1], importer, loads) then [es[|es| - 1]] else [])
  }

  /** An element becomes an object exactly when it names a model that loads. */
  lemma {:induction false} KeptObjectsAreTheLoadable(es: seq<Element>, importer: string -> Option<Model.AiScene>,
                                                     loads: string -> bool)
    ensures forall e :: e in KeptObjects(es, importer, loads) <==> e in es && Kept(e, importer, loads)
  {
    if es != [] {
      var init := es[..|es| - 1];
      KeptObjectsAreTheLoadable(init, importer, loads);
      assert es == init + [es[|es| - 1]];
    }
  }

  lemma KeptObjectsStep(es: seq<Element>, i: nat, importer: string -> Option<Model.AiScene>, loads: string -> bool)
    requires i < |es|
    ensures KeptObjects(es[..i + 1], importer, loads) ==
      KeptObjects(es[..i], importer, loads) + (if Kept(es[i], importer, loads) then [es[i]] else [])
  {
    assert es[..i + 1][..i] == es[..i];
  }

  /** Object o is the loaded object of element e. */
  predicate LoadedFrom(o: FrgGameObject, e: Element)
    reads o, if o.model.Some? then {o.model.value} else {}
  {
    Attribute(e, "model").Some?
    && o.transform == ObjectTransform(e)
    && o.model.Some? && o.model.value.dir == Model.Dir(Attribute(e, "model").value)
  }

  /**
   * One GameObject element: skipped without a model attribute; otherwise a
   * new object (taking an id) whose model is loaded, skipped if that throws,
   * and otherwise given the element's transform.
   */
  method LoadObject(obj: Element, device: Device.FrgDevice, registry: Mesh.LoadedTextures,
                    importer: string -> Option<Model.AiScene>, loads: string -> bool, sizes: string -> Extent,
                    ids: IdCounter)
    returns (o: Option<FrgGameObject>)
    requires ImporterWellFormed(importer)
    modifies device, registry, ids
    ensures o.Some? <==> Kept(obj, importer, loads)
    ensures o.Some? ==> fresh(o.value) && LoadedFrom(o.value, obj)
    ensures Attribute(obj, "model").None? ==> unchanged(device, registry, ids)
  {
    var modelPath := Attribute(obj, "model");
    if modelPath.None? {
      return None;
    }
    var gameObject := CreateGameObject(ids);
    var model := Model.LoadModel(modelPath.value, importer(modelPath.value), [], device, registry, loads, sizes);
    if model.Err? {
      return None;
    }
    gameObject.model := Some(model.value);
    gameObject.transform := ObjectTransform(obj);
    return Some(gameObject);
  }

  method LoadObjects(scene: Element, device: Device.FrgDevice, registry: Mesh.LoadedTextures,
                     importer: string -> Option<Model.AiScene>, loads: string -> bool, sizes: string -> Extent,
                    ids: IdCounter,
                     gameObjects: seq<FrgGameObject>)
    returns (objects: seq<FrgGameObject>)
    requires ImporterWellFormed(importer)
    modifies device, registry, ids
    ensures |objects| == |gameObjects| + |KeptObjects(Named(scene.children, "GameObject"), importer, loads)|
    ensures objects[..|gameObjects|] == gameObjects
    ensures forall k :: |gameObjects| <= k < |objects| ==>
      fresh(objects[k])
      && LoadedFrom(objects[k], KeptObjects(Named(scene.children, "GameObject"), importer, loads)[k - |gameObjects|])
  {
    var elements := Named(scene.children, "GameObject");
    objects := gameObjects;
    var i := 0;
    while i < |elements|
      invariant i <= |elements|
      invariant |objects| == |gameObjects| + |KeptObjects(elements[..i], importer, loads)|
      invariant objects[..|gameObjects|] == gameObjects
      invariant forall k :: |gameObjects| <= k < |objects| ==>
        fresh(objects[k]) && LoadedFrom(objects[k], KeptObjects(elements[..i], importer, loads)[k - |gameObjects|])
    {
      KeptObjectsStep(elements, i, importer, loads);
      var o := LoadObject(elements[i], device, registry, importer, loads, sizes, ids);
      if o.Some? {
        objects := objects + [o.value];
      }
      i := i + 1;
    }
    assert elements[..i] == elements;
  }

  /**
   * load: when the file loads and has a Scene element, the settings, the
   * camera's transform, the point lights and the game objects, in that
   * order; otherwise nothing.
   */
  method Load(doc: Option<seq<Element>>, device: Device.FrgDevice, registry: Mesh.LoadedTextures,
              importer: string -> Option<Model.AiScene>, loads: string -> bool, sizes: string -> Extent,
                    ids: IdCounter,
              gameObjects: seq<FrgGameObject>, camera: FrgGameObject, lights: Lighting.LightManager,
              settings: SceneSettings)
    returns (objects: seq<FrgGameObject>, newSettings: SceneSettings)
    requires ImporterWellFormed(importer)
    modifies device, registry, ids, camera`transform, lights`pointLights
    ensures FindScene(doc).None? ==>
      objects == gameObjects && newSettings == settings && camera.transform == old(camera.transform)
      && lights.pointLights == old(lights.pointLights) && unchanged(device, registry, ids)
    ensures FindScene(doc).Some? ==>
      (var scene := FindScene(doc).value;
       var kept := KeptObjects(Named(scene.children, "GameObject"), importer, loads);
       newSettings == SettingsFrom(scene, settings)
       && camera.transform == CameraTransform(scene, old(camera.transform))
       && lights.pointLights == AddAll(old(lights.pointLights), SceneLights(Named(scene.children, "Light")))
       && |objects| == |gameObjects| + |kept| && objects[..|gameObjects|] == gameObjects
       && forall k :: |gameObjects| <= k < |objects| ==>
            fresh(objects[k]) && LoadedFrom(objects[k], kept[k - |gameObjects|]))
  {
    objects, newSettings := gameObjects, settings;
    if doc.None? {
      return;
    }
    var scene := FirstChild(doc.value, "Scene");
    if scene.None? {
      return;
    }
    newSettings := SettingsFrom(scene.value, settings);
    LoadCamera(scene.value, camera);
    LoadLights(scene.value, lights);
    objects := LoadObjects(scene.value, device, registry, importer, loads, sizes, ids, gameObjects);
  }
}
