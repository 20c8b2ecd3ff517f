/**
 * The hard-coded catalog the mass SEO plan enumerates: Denver with five appliances
 * and eight problems each, five tier-2 cities with four appliances and five problems
 * each, and ten premium brand pages.
 */
module PlanCatalog {
  import opened Wrappers

  datatype City = City(name: string, slug: string, tier: int)

  datatype Problem = Problem(name: string, slug: string)

  /** An appliance of a matrix; `name` is its key in the ordered table (`Washer`, ...). */
  datatype Appliance = Appliance(name: string, slug: string, servicePage: string, problems: seq<Problem>)

  datatype BrandPage = BrandPage(
    brand: string, brandSlug: string, category: string,
    applianceSlug: string, problem: string, problemSlug: string)

  datatype Catalog = Catalog(
    denver: City,
    denverAppliances: seq<Appliance>,
    tier2Cities: seq<City>,
    tier2Appliances: seq<Appliance>,
    brandPages: seq<BrandPage>)

  const Denver: City := City("Denver", "denver", 1)

  /** The Denver matrix: five appliances with eight problems each. */
  const DenverAppliances: seq<Appliance> := [
    Appliance("Washer", "washer", "washer-repair-denver.html", [
        Problem("Not Draining", "not-draining"),
        Problem("Not Spinning", "not-spinning"),
        Problem("Leaking Water", "leaking-water"),
        Problem("Not Starting", "not-starting"),
        Problem("Shaking Vibrating", "shaking-vibrating"),
        Problem("Not Filling", "not-filling"),
        Problem("Making Loud Noise", "making-loud-noise"),
        Problem("Won't Agitate", "wont-agitate")
      ]),
    Appliance("Dryer", "dryer", "dryer-repair-denver.html", [
        Problem("Not Heating", "not-heating"),
        Problem("Not Spinning", "not-spinning"),
        Problem("Not Starting", "not-starting"),
        Problem("Making Loud Noise", "making-loud-noise"),
        Problem("Takes Too Long", "takes-too-long"),
        Problem("Overheating", "overheating"),
        Problem("Won't Tumble", "wont-tumble"),
        Problem("Not Drying", "not-drying")
      ]),
    Appliance("Refrigerator", "refrigerator", "fridge-repair-denver.html", [
        Problem("Not Cooling", "not-cooling"),
        Problem("Leaking Water", "leaking-water"),
        Problem("Ice Maker Not Working", "ice-maker-not-working"),
        Problem("Not Running", "not-running"),
        Problem("Freezer Not Freezing", "freezer-not-freezing"),
        Problem("Making Noise", "making-noise"),
        Problem("Too Cold", "too-cold"),
        Problem("Water Dispenser Not Working", "water-dispenser-not-working")
      ]),
    Appliance("Dishwasher", "dishwasher", "dishwasher-repair-denver.html", [
        Problem("Not Draining", "not-draining"),
        Problem("Not Cleaning Dishes", "not-cleaning-dishes"),
        Problem("Leaking Water", "leaking-water"),
        Problem("Not Starting", "not-starting"),
        Problem("Not Drying", "not-drying"),
        Problem("Making Noise", "making-noise"),
        Problem("Won't Fill", "wont-fill"),
        Problem("Door Won't Close", "door-wont-close")
      ]),
    Appliance("Oven", "oven", "oven-repair-denver.html", [
        Problem("Not Heating", "not-heating"),
        Problem("Not Turning On", "not-turning-on"),
        Problem("Temperature Inaccurate", "temperature-inaccurate"),
        Problem("Burner Not Working", "burner-not-working"),
        Problem("Won't Turn Off", "wont-turn-off"),
        Problem("Self-Clean Not Working", "self-clean-not-working"),
        Problem("Door Won't Close", "door-wont-close"),
        Problem("Uneven Heating", "uneven-heating")
      ])
  ]

  /** The five tier-2 cities, in enumeration order. */
  const Tier2Cities: seq<City> := [
    City("Aurora", "aurora", 2),
    City("Highlands Ranch", "highlands-ranch", 2),
    City("Lakewood", "lakewood", 2),
    City("Arvada", "arvada", 2),
    City("Westminster", "westminster", 2)
  ]

  /** The tier-2 matrix: four appliances (no oven) with five problems each. */
  const Tier2Appliances: seq<Appliance> := [
    Appliance("Washer", "washer", "washer-repair-denver.html", [
        Problem("Not Draining", "not-draining"),
        Problem("Not Spinning", "not-spinning"),
        Problem("Leaking Water", "leaking-water"),
        Problem("Not Starting", "not-starting"),
        Problem("Not Filling", "not-filling")
      ]),
    Appliance("Dryer", "dryer", "dryer-repair-denver.html", [
        Problem("Not Heating", "not-heating"),
        Problem("Not Spinning", "not-spinning"),
        Problem("Not Starting", "not-starting"),
        Problem("Making Loud Noise", "making-loud-noise"),
        Problem("Not Drying", "not-drying")
      ]),
    Appliance("Refrigerator", "refrigerator", "fridge-repair-denver.html", [
        Problem("Not Cooling", "not-cooling"),
        Problem("Leaking Water", "leaking-water"),
        Problem("Ice Maker Not Working", "ice-maker-not-working"),
        Problem("Not Running", "not-running"),
        Problem("Making Noise", "making-noise")
      ]),
    Appliance("Dishwasher", "dishwasher", "dishwasher-repair-denver.html", [
        Problem("Not Draining", "not-draining"),
        Problem("Not Cleaning Dishes", "not-cleaning-dishes"),
        Problem("Leaking Water", "leaking-water"),
        Problem("Not Starting", "not-starting"),
        Problem("Not Drying", "not-drying")
      ])
  ]

  /** The ten premium brand pages (five refrigerator, five dryer). */
  const BrandPages: seq<BrandPage> := [
    BrandPage("Sub-Zero", "sub-zero", "Refrigerator", "refrigerator", "Not Cooling", "not-cooling"),
    BrandPage("Viking", "viking", "Refrigerator", "refrigerator", "Not Cooling", "not-cooling"),
    BrandPage("Thermador", "thermador", "Refrigerator", "refrigerator", "Not Cooling", "not-cooling"),
    BrandPage("Bosch", "bosch", "Refrigerator", "refrigerator", "Leaking Water", "leaking-water"),
    BrandPage("Miele", "miele", "Refrigerator", "refrigerator", "Ice Maker Not Working", "ice-maker-not-working"),
    BrandPage("Samsung", "samsung", "Dryer", "dryer", "Not Heating", "not-heating"),
    BrandPage("LG", "lg", "Dryer", "dryer", "Not Heating", "not-heating"),
    BrandPage("Miele", "miele", "Dryer", "dryer", "Not Heating", "not-heating"),
    BrandPage("Bosch", "bosch", "Dryer", "dryer", "Not Starting", "not-starting"),
    BrandPage("Whirlpool", "whirlpool", "Dryer", "dryer", "Not Spinning", "not-spinning")
  ]

  /** The catalog as shipped. */
  const Shipped: Catalog := Catalog(Denver, DenverAppliances, Tier2Cities, Tier2Appliances, BrandPages)

  /**
   * The service page of a brand page's appliance (a dictionary lookup with `""`
   * for an appliance it does not list).
   */
  function BrandServicePage(applianceSlug: string): (r: string)
    ensures r != "" <==> applianceSlug in {"refrigerator", "dryer"}
  {
    if applianceSlug == "refrigerator" then "fridge-repair-denver.html"
    else if applianceSlug == "dryer" then "dryer-repair-denver.html"
    else ""
  }

  /** Number of (appliance, problem) pairs of a matrix. */
  function ProblemCount(apps: seq<Appliance>): nat {
    if apps == [] then 0 else |apps[0].problems| + ProblemCount(apps[1..])
  }
}
