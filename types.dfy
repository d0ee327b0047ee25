/// Shared value types of the game client: vectors, the closed resource and
/// biome enumerations, and the four-slot inventory.
module Types {

  datatype Option<+T> = None | Some(value: T)

  /// A point or a velocity in world units.
  datatype Vector2 = Vector2(x: real, y: real)

  /// The four gatherable resource kinds.
  datatype ResourceType = Wood | Stone | Food | Mineral

  /// The five biome categories a world cell can have.
  datatype BiomeType = Forest | Plains | Desert | Snow | Swamp

  /// One count per resource kind.
  datatype ResourceAmount = ResourceAmount(wood: nat, stone: nat, food: nat, mineral: nat)
  {
    function Count(t: ResourceType): nat
    {
      match t
      case Wood => wood
      case Stone => stone
      case Food => food
      case Mineral => mineral
    }

    /// The amount after `resources[t]++`.
    function Incremented(t: ResourceType): (r: ResourceAmount)
      ensures r.Count(t) == Count(t) + 1
      ensures forall u :: u != t ==> r.Count(u) == Count(u)
    {
      match t
      case Wood => this.(wood := wood + 1)
      case Stone => this.(stone := stone + 1)
      case Food => this.(food := food + 1)
      case Mineral => this.(mineral := mineral + 1)
    }
  }

  const EmptyAmount := ResourceAmount(0, 0, 0, 0)

  /// The inventory object a player carries; the interaction system mutates
  /// its counts in place.
  class Inventory {
    var resources: ResourceAmount

    constructor ()
      ensures resources == EmptyAmount
      ensures forall t :: resources.Count(t) == 0
    {
      resources := EmptyAmount;
    }

    /// `inventory.resources[t]++`
    method Increment(t: ResourceType)
      modifies this
      ensures resources == old(resources).Incremented(t)
    {
      resources := resources.Incremented(t);
    }
  }
}
