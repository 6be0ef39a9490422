/**
 * The service catalogue (components/services/serviceData.ts): the three
 * service kinds, their string keys, and the constant record that the
 * service page looks its content up in.
 */
module ServiceData {
  import opened Wrappers

  /** `'kitchens' | 'media-panels' | 'interior-decor'` */
  datatype ServiceType = Kitchens | MediaPanels | InteriorDecor

  /** The string literal that stands for each service kind. */
  function Key(t: ServiceType): string {
    match t
    case Kitchens => "kitchens"
    case MediaPanels => "media-panels"
    case InteriorDecor => "interior-decor"
  }

  /** Reads a string back as a service kind; anything else is not one. */
  function ParseServiceType(s: string): (r: Option<ServiceType>)
    ensures r.Some? ==> Key(r.value) == s
    ensures forall t :: s == Key(t) ==> r == Some(t)
  {
    if s == "kitchens" then Some(Kitchens)
    else if s == "media-panels" then Some(MediaPanels)
    else if s == "interior-decor" then Some(InteriorDecor)
    else None
  }

  /** The three keys are the only strings of the type, and each reads back as its kind. */
  lemma KeyRoundTrip(t: ServiceType)
    ensures ParseServiceType(Key(t)) == Some(t)
  {
  }

  datatype ProcessStep = ProcessStep(number: string, title: string, description: string)
  datatype Hero = Hero(title: string, subtitle: string, category: string)
  datatype Service = Service(
    id: ServiceType,
    hero: Hero,
    paragraphs: seq<string>,
    capabilities: seq<string>,
    process: seq<ProcessStep>)

  /** The two-digit label of the step at position i: "01", "02", ... */
  function StepNumber(i: nat): string
    requires i < 9
  {
    ['0', "123456789"[i]]
  }

  /** The shape every entry of the catalogue has. */
  predicate WellFormed(t: ServiceType, d: Service) {
    && d.id == t
    && |d.paragraphs| == 3
    && |d.capabilities| == 7
    && |d.process| == 4
    && forall i :: 0 <= i < |d.process| ==> d.process[i].number == StepNumber(i)
  }

  const KitchensData := Service(
    Kitchens,
    Hero("Modular Culinary Spaces", "Where function meets artistry in the heart of your home", "Kitchens"),
    [ "The kitchen is no longer just a space for preparation—it is the architectural core of modern living. We approach each project with the understanding that a well-designed kitchen must balance precision engineering with timeless aesthetics.",
      "Our modular systems are built around intelligent storage, seamless integration of appliances, and materials that age with grace. Every surface, every mechanism, every joint is considered.",
      "From matte lacquer finishes to natural stone countertops, we work exclusively with materials that meet our standards for durability, beauty, and environmental responsibility." ],
    [ "Custom Island Configurations", "Hidden & Integrated Appliances", "Stone & Marble Countertops",
      "Soft-Close Cabinetry Systems", "Smart Storage Solutions", "Integrated Ambient Lighting",
      "Handleless Design Options" ],
    [ ProcessStep("01", "Consultation", "We begin with an in-depth conversation about your lifestyle, cooking habits, and spatial requirements."),
      ProcessStep("02", "Design Development", "Our team creates detailed 3D visualizations and technical drawings for your approval."),
      ProcessStep("03", "Material Selection", "Together, we curate the perfect combination of finishes, hardware, and surfaces."),
      ProcessStep("04", "Installation", "Our craftsmen execute the installation with precision, ensuring every detail is perfect.") ])

  const MediaPanelsData := Service(
    MediaPanels,
    Hero("Media & Panel Systems", "Architectural entertainment design for the modern home", "TV Systems & Theatre Rooms"),
    [ "Entertainment spaces deserve more than a screen on a wall. Our media panel systems transform your living area into a seamless composition of technology and design, where every wire is hidden and every surface tells a story.",
      "For those with the space to dream bigger, we design complete private theatre rooms—immersive cinematic experiences engineered for your home. Theatre installations require a dedicated room of adequate size to achieve proper acoustics, seating arrangement, and screen proportions.",
      "From floating TV units that appear to defy gravity to backlit stone panels that create ambient atmospheres, each installation is engineered to accommodate future technology upgrades while maintaining its architectural integrity for years to come." ],
    [ "Private Theatre Room Design", "Floating TV Unit Systems", "Backlit Onyx & Stone Panels",
      "Acoustic Wood Paneling", "Concealed Cable Management", "Integrated Soundbar Housing",
      "LED Ambient Lighting" ],
    [ ProcessStep("01", "Space Assessment", "We evaluate your room dimensions, viewing angles, and existing electrical infrastructure."),
      ProcessStep("02", "Panel Design", "Custom designs are created to complement your interior while maximizing functionality."),
      ProcessStep("03", "Technical Planning", "All wiring, mounting systems, and lighting are meticulously planned before execution."),
      ProcessStep("04", "Installation", "Our specialists install the complete system with attention to every concealed detail.") ])

  const InteriorDecorData := Service(
    InteriorDecor,
    Hero("Interior Decor", "Spatial transformation through architectural detail", "Walls & Ceilings"),
    [ "True interior design lives in the details—the way light falls across a textured wall, the quiet confidence of a well-proportioned ceiling, the subtle interplay between furniture and space.",
      "We approach interior decor as an exercise in restraint and intention. Our work encompasses false ceiling designs that add dimension without overwhelm, wall treatments that create atmosphere, and custom furniture that belongs exactly where it stands.",
      "Every element is considered in relation to the whole, creating spaces that feel both curated and effortless." ],
    [ "False Ceiling Concepts", "Textured Wall Finishes", "Custom Tables & Cabinets",
      "Ambient Lighting Design", "Architectural Feature Walls", "Crown Molding & Trim",
      "Bespoke Furniture Pieces" ],
    [ ProcessStep("01", "Vision Mapping", "We explore your aesthetic preferences, functional needs, and the character you envision."),
      ProcessStep("02", "Material Consultation", "Hands-on sessions with finishes, fabrics, and samples to define the material palette."),
      ProcessStep("03", "Design Finalization", "Comprehensive plans and mood boards ensure alignment before any work begins."),
      ProcessStep("04", "Execution", "Our artisans bring the vision to life with craftsmanship and precision.") ])

  /** `servicesData`: the catalogue, keyed by service kind. */
  const ServicesData: map<ServiceType, Service> :=
    map[Kitchens := KitchensData, MediaPanels := MediaPanelsData, InteriorDecor := InteriorDecorData]

  /** The record literal has an entry for every service kind, filed under its own id. */
  lemma ServicesDataTotal(t: ServiceType)
    ensures t in ServicesData && ServicesData[t].id == t
  {
  }

  /**
   * `servicesData[serviceType]` as the service page performs it: defined for
   * every kind, and what it finds is that kind's well-formed entry.
   */
  function Lookup(t: ServiceType): (d: Service)
    ensures WellFormed(t, d)
  {
    ServicesDataTotal(t);
    ServicesData[t]
  }
}
