/** The dish record and its AI metadata block. The three enumerations are
    kept as strings because the program reads them from JSON and compares
    them as strings; the sanitiser is what confines them to their allowed
    values. */
module DishTypes {
  import opened Wrappers

  datatype AiMeta = AiMeta(
    flavorProfile: seq<string>,
    mealContext: seq<string>,
    dietaryTags: seq<string>,
    keyIngredients: seq<string>,
    textureProfile: seq<string>,
    servingTemperature: string,
    spiceLevel: int,
    allergenRiskTags: seq<string>,
    proteinType: string,
    courseType: seq<string>,
    cookingMethodTags: seq<string>,
    comfortVsLight: string,
    adventureLevel: int,
    aiConfidence: real)

  /** A dish. The data-collection scripts produce it without `ai`; the
      enrichment script adds it. */
  datatype Dish = Dish(
    id: string,
    name: string,
    image: string,
    cuisines: seq<string>,
    ingredients: seq<string>,
    categories: seq<string>,
    ai: Option<AiMeta>)
}
