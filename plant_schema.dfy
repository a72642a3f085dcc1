/** The plant enums of the generated database types (src/integrations/supabase/types.ts): the life-cycle
    status of a plant and its origin. */
module PlantSchema {

  /** The `plant_status` enum. */
  datatype PlantStatus = Germinating | Vegetative | Flowering | Harvested | Discontinued

  /** The `plant_origin` enum. */
  datatype Origin = Seed | Clone

  /** The text the database stores for a status. */
  function StatusName(s: PlantStatus): (name: string)
    ensures name != ""
  {
    match s
    case Germinating => "germinating"
    case Vegetative => "vegetative"
    case Flowering => "flowering"
    case Harvested => "harvested"
    case Discontinued => "discontinued"
  }

  /** Distinct statuses are stored as distinct texts. */
  lemma StatusNamesDistinct(a: PlantStatus, b: PlantStatus)
    ensures StatusName(a) == StatusName(b) <==> a == b
  {
  }
}
