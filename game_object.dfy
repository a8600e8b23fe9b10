/**
 * FrgGameObject: an object of the scene with its transform, colour and
 * (optional, shared) model, and the process-wide counter that gives each
 * new object its id.
 */
module GameObject {
  import opened VkTypes
  import Model

  /** id_t is an unsigned int: the counter wraps at 2^32. */
  const ID_MODULUS: nat := 0x1_0000_0000

  /** TransformComponent: translation, scale and rotation (radians, Y-X-Z Tait-Bryan angles). */
  datatype Transform = Transform(translation: Vec3, scale: Vec3, rotation: Vec3)

  /** `TransformComponent{}`: no translation, unit scale, no rotation. */
  const DEFAULT_TRANSFORM := Transform(Vec3(0.0, 0.0, 0.0), Vec3(1.0, 1.0, 1.0), Vec3(0.0, 0.0, 0.0))

  /** The static currentId of createGameObject. */
  class IdCounter {
    var currentId: nat

    predicate Valid()
      reads this
    {
      currentId < ID_MODULUS
    }

    constructor()
      ensures currentId == 0 && Valid()
    {
      currentId := 0;
    }
  }

  class FrgGameObject {
    const id: nat
    var model: Option<Model.FrgModel>
    var color: Vec3
    var transform: Transform

    constructor(id: nat)
      ensures this.id == id && model == None && color == Vec3(0.0, 0.0, 0.0) && transform == DEFAULT_TRANSFORM
    {
      this.id := id;
      model := None;
      color := Vec3(0.0, 0.0, 0.0);
      transform := DEFAULT_TRANSFORM;
    }
  }

  /**
   * createGameObject: a new object, without a model, black, with the
   * default transform, taking the counter's current id; the counter moves on
   * (modulo 2^32).
   */
  method CreateGameObject(ids: IdCounter) returns (o: FrgGameObject)
    modifies ids
    ensures fresh(o) && o.id == old(ids.currentId)
    ensures o.model == None && o.color == Vec3(0.0, 0.0, 0.0) && o.transform == DEFAULT_TRANSFORM
    ensures ids.currentId == (old(ids.currentId) + 1) % ID_MODULUS && ids.Valid()
  {
    o := new FrgGameObject(ids.currentId);
    ids.currentId := (ids.currentId + 1) % ID_MODULUS;
  }
}
