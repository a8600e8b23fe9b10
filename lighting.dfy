/**
 * The scene's lights: the LightManager's growable list of point lights
 * (at most MAX_LIGHTS of them) and its directional light, and the
 * fixed-size LightData block it fills for the GPU.
 */
module Lighting {
  import opened VkTypes

  /** The most point lights the GPU block holds. */
  const MAX_LIGHTS: nat := 10

  /** A PointLight: position with w = 1, colour with w = intensity, attenuation radius. */
  datatype PointLight = PointLight(position: Vec4, color: Vec4, radius: real)

  /** A DirectionalLight: direction with w = 0, colour with w = intensity. */
  datatype DirectionalLight = DirectionalLight(direction: Vec4, color: Vec4)

  function Extend(v: Vec3, w: real): Vec4
  {
    Vec4(v.x, v.y, v.z, w)
  }

  /** PointLight(): at the origin, white with intensity 1, radius 10. */
  const DEFAULT_POINT_LIGHT := PointLight(Vec4(0.0, 0.0, 0.0, 1.0), Vec4(1.0, 1.0, 1.0, 1.0), 10.0)

  /** DirectionalLight(): straight down, white with intensity 1. */
  const DEFAULT_DIRECTIONAL_LIGHT := DirectionalLight(Vec4(0.0, -1.0, 0.0, 0.0), Vec4(1.0, 1.0, 1.0, 1.0))

  /** PointLight(pos, col, intensity, rad). */
  function NewPointLight(pos: Vec3, col: Vec3, intensity: real, rad: real): (l: PointLight)
    ensures l.position.w == 1.0 && l.color.w == intensity && l.radius == rad
    ensures Vec3(l.position.x, l.position.y, l.position.z) == pos && Vec3(l.color.x, l.color.y, l.color.z) == col
  {
    PointLight(Extend(pos, 1.0), Extend(col, intensity), rad)
  }

  /** DirectionalLight(dir, col, intensity). */
  function NewDirectionalLight(dir: Vec3, col: Vec3, intensity: real): (d: DirectionalLight)
    ensures d.direction.w == 0.0 && d.color.w == intensity
    ensures Vec3(d.direction.x, d.direction.y, d.direction.z) == dir && Vec3(d.color.x, d.color.y, d.color.z) == col
  {
    DirectionalLight(Extend(dir, 0.0), Extend(col, intensity))
  }

  // The point-light list as a value: what each LightManager operation makes of it

  /** addPointLight: appended while there is room, otherwise dropped. */
  function WithLight(lights: seq<PointLight>, l: PointLight): seq<PointLight>
  {
    if |lights| < MAX_LIGHTS then lights + [l] else lights
  }

  /** updatePointLight: light i moves to p (with w = 1) when it exists. */
  function Moved(lights: seq<PointLight>, i: nat, p: Vec3): seq<PointLight>
  {
    if i < |lights| then lights[i := lights[i].(position := Extend(p, 1.0))] else lights
  }

  /** updatePointLightColor: light i takes colour c with intensity k when it exists. */
  function Recoloured(lights: seq<PointLight>, i: nat, c: Vec3, k: real): seq<PointLight>
  {
    if i < |lights| then lights[i := lights[i].(color := Extend(c, k))] else lights
  }

  /** The list never grows past MAX_LIGHTS, and a light is added exactly when there was room. */
  lemma WithLightBounded(lights: seq<PointLight>, l: PointLight)
    ensures |lights| <= MAX_LIGHTS ==> |WithLight(lights, l)| <= MAX_LIGHTS
    ensures |WithLight(lights, l)| == |lights| + 1 <==> |lights| < MAX_LIGHTS
    ensures |lights| < MAX_LIGHTS ==> WithLight(lights, l)[|lights|] == l
    ensures WithLight(lights, l)[..|lights|] == lights
  {
  }

  /**
   * An update touches only light i's position (or colour and intensity),
   * keeps the list's length and every other light; out of range it does nothing.
   */
  lemma UpdatesChangeOnlyTheirLight(lights: seq<PointLight>, i: nat, p: Vec3, c: Vec3, k: real)
    ensures |Moved(lights, i, p)| == |lights| && |Recoloured(lights, i, c, k)| == |lights|
    ensures forall j :: 0 <= j < |lights| && j != i ==>
      Moved(lights, i, p)[j] == lights[j] && Recoloured(lights, i, c, k)[j] == lights[j]
    ensures i < |lights| ==>
      Moved(lights, i, p)[i] == PointLight(Extend(p, 1.0), lights[i].color, lights[i].radius)
      && Recoloured(lights, i, c, k)[i] == PointLight(lights[i].position, Extend(c, k), lights[i].radius)
    ensures i >= |lights| ==> Moved(lights, i, p) == lights && Recoloured(lights, i, c, k) == lights
  {
  }

  /** The lights getLightData copies: the first min(size, MAX_LIGHTS). */
  function Uploaded(lights: seq<PointLight>): seq<PointLight>
  {
    if |lights| <= MAX_LIGHTS then lights else lights[..MAX_LIGHTS]
  }

  /** While the manager's bound holds, getLightData's MAX_LIGHTS guard never cuts a light off. */
  lemma BoundedListUploadsWhole(lights: seq<PointLight>)
    ensures |Uploaded(lights)| <= MAX_LIGHTS && Uploaded(lights) <= lights
    ensures |lights| <= MAX_LIGHTS <==> Uploaded(lights) == lights
  {
  }

  /** LightData: the fixed-size block of point lights with its count, and the directional light. */
  class LightData {
    const pointLights: array<PointLight>
    var pointLightCount: nat
    var directionalLight: DirectionalLight

    /** The block's shape: MAX_LIGHTS slots, of which the first pointLightCount are in use. */
    predicate Valid()
      reads this
    {
      pointLights.Length == MAX_LIGHTS && pointLightCount <= MAX_LIGHTS
    }

    /** `LightData data{}`: every slot a default light, no light counted, the default directional light. */
    constructor()
      ensures Valid() && fresh(pointLights)
      ensures pointLightCount == 0 && directionalLight == DEFAULT_DIRECTIONAL_LIGHT
      ensures forall k :: 0 <= k < pointLights.Length ==> pointLights[k] == DEFAULT_POINT_LIGHT
    {
      pointLights := new PointLight[MAX_LIGHTS](_ => DEFAULT_POINT_LIGHT);
      pointLightCount := 0;
      directionalLight := DEFAULT_DIRECTIONAL_LIGHT;
    }

    /** LightData::addPointLight: into the next free slot, if there is one. */
    method AddPointLight(light: PointLight)
      requires Valid()
      modifies this`pointLightCount, pointLights
      ensures Valid()
      ensures old(pointLightCount) < MAX_LIGHTS ==>
        (pointLightCount == old(pointLightCount) + 1
         && pointLights[..] == old(pointLights[..])[old(pointLightCount) := light])
      ensures old(pointLightCount) >= MAX_LIGHTS ==>
        pointLightCount == old(pointLightCount) && pointLights[..] == old(pointLights[..])
    {
      if pointLightCount < MAX_LIGHTS {
        pointLights[pointLightCount] := light;
        pointLightCount := pointLightCount + 1;
      }
    }

    /** LightData::clearPointLights: the count drops to zero; the slots keep their contents. */
    method ClearPointLights()
      requires Valid()
      modifies this`pointLightCount
      ensures Valid() && pointLightCount == 0
    {
      pointLightCount := 0;
    }
  }

  /** LightManager: the scene's point lights and its directional light. */
  class LightManager {
    var pointLights: seq<PointLight>
    var directionalLight: DirectionalLight

    /** At most MAX_LIGHTS point lights. */
    predicate Valid()
      reads this
    {
      |pointLights| <= MAX_LIGHTS
    }

    constructor()
      ensures Valid() && pointLights == [] && directionalLight == DEFAULT_DIRECTIONAL_LIGHT
    {
      pointLights := [];
      directionalLight := DEFAULT_DIRECTIONAL_LIGHT;
    }

    /** addPointLight: appends the light if fewer than MAX_LIGHTS are held. */
    method AddPointLight(position: Vec3, color: Vec3, intensity: real, radius: real)
      modifies this`pointLights
      ensures pointLights == WithLight(old(pointLights), NewPointLight(position, color, intensity, radius))
      ensures old(Valid()) ==> Valid()
    {
      if |pointLights| < MAX_LIGHTS {
        pointLights := pointLights + [NewPointLight(position, color, intensity, radius)];
      }
    }

    /** updatePointLight: moves light index to position, if it exists. */
    method UpdatePointLight(index: nat, position: Vec3)
      modifies this`pointLights
      ensures pointLights == Moved(old(pointLights), index, position)
      ensures |pointLights| == |old(pointLights)|
    {
      if index < |pointLights| {
        pointLights := pointLights[index := pointLights[index].(position := Extend(position, 1.0))];
      }
    }

    /** updatePointLightColor: recolours light index, if it exists. */
    method UpdatePointLightColor(index: nat, color: Vec3, intensity: real)
      modifies this`pointLights
      ensures pointLights == Recoloured(old(pointLights), index, color, intensity)
      ensures |pointLights| == |old(pointLights)|
    {
      if index < |pointLights| {
        pointLights := pointLights[index := pointLights[index].(color := Extend(color, intensity))];
      }
    }

    method ClearPointLights()
      modifies this`pointLights
      ensures pointLights == [] && Valid()
    {
      pointLights := [];
    }

    /**
     * setDirectionalLight, given glm::normalize(direction) (the
     * normalisation itself is floating point and not modelled).
     */
    method SetDirectionalLight(normalizedDirection: Vec3, color: Vec3, intensity: real)
      modifies this`directionalLight
      ensures directionalLight == NewDirectionalLight(normalizedDirection, color, intensity)
    {
      directionalLight := NewDirectionalLight(normalizedDirection, color, intensity);
    }

    /** getPointLightCount: while the bound holds, the count getLightData uploads. */
    function PointLightCount(): (r: nat)
      reads this
      ensures Valid() ==> r == |Uploaded(pointLights)| && r <= MAX_LIGHTS
    {
      |pointLights|
    }

    /**
     * getLightData: a fresh block holding the first min(size, MAX_LIGHTS)
     * point lights in order, counted, with the remaining slots at their
     * defaults, and the directional light.
     */
    method GetLightData() returns (data: LightData)
      ensures fresh(data) && fresh(data.pointLights) && data.Valid()
      ensures data.pointLightCount == |Uploaded(pointLights)|
      ensures data.pointLights[..data.pointLightCount] == Uploaded(pointLights)
      ensures forall k :: data.pointLightCount <= k < MAX_LIGHTS ==> data.pointLights[k] == DEFAULT_POINT_LIGHT
      ensures data.directionalLight == directionalLight
    {
      data := new LightData();
      var i := 0;
      while i < |pointLights| && i < MAX_LIGHTS
        invariant i <= |pointLights| && i <= MAX_LIGHTS
        invariant data.Valid() && data.pointLightCount == i
        invariant data.pointLights[..i] == pointLights[..i]
        invariant forall k :: i <= k < MAX_LIGHTS ==> data.pointLights[k] == DEFAULT_POINT_LIGHT
        invariant data.directionalLight == DEFAULT_DIRECTIONAL_LIGHT
        modifies data, data.pointLights
      {
        data.pointLights[i] := pointLights[i];
        data.pointLightCount := data.pointLightCount + 1;
        i := i + 1;
      }
      data.directionalLight := directionalLight;
    }
  }
}
