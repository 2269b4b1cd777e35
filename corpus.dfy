/** The fixed corpus that `_create_chunks` builds: thirteen chunk records in a set order. */
module Corpus {
  import opened RagTypes

  /** The corpus, in the order `_create_chunks` lists them. */
  function CreateChunks(): (r: seq<Chunk>)
    ensures |r| == 13
    ensures forall i :: 0 <= i < |r| ==> "section" in r[i].metadata
  {
    [ Intro,
      Applications,
      KeyFeatures,
      HydraulicSpecs,
      Performance15gpm,
      Performance20gpm,
      Performance25gpm,
      Performance30gpm,
      Performance40gpm,
      ValveDesign,
      CylinderDesign,
      DriveDesign,
      ContactInfo
    ]
  }

  /** The chunk ids, in corpus order. */
  function ChunkIds(): (ids: seq<string>)
    ensures |ids| == 13
  {
    [ "intro", "applications", "key_features", "hydraulic_specs",
      "performance_15gpm", "performance_20gpm", "performance_25gpm", "performance_30gpm",
      "performance_40gpm", "valve_design", "cylinder_design", "drive_design", "contact_info" ]
  }

  /** No two chunks share an id. */
  lemma ChunkIdsDistinct()
    ensures forall i, j :: 0 <= i < j < |ChunkIds()| ==> ChunkIds()[i] != ChunkIds()[j]
  {
  }

  /** Chunk `i` of the corpus carries the id `ChunkIds()[i]`. */
  lemma CorpusIds()
    ensures |CreateChunks()| == |ChunkIds()|
    ensures forall i :: 0 <= i < |ChunkIds()| ==> CreateChunks()[i].id == ChunkIds()[i]
  {
  }

  /** The metadata every chunk carries: its section and its type. */
  function Metadata(section: string, kind: string): (m: map<string, string>)
    ensures "section" in m && m["section"] == section
  {
    map["section" := section, "type" := kind]
  }

  /** The metadata of the performance chunks, which also record the pump flow. */
  function PerformanceMetadata(pumpFlow: string): (m: map<string, string>)
    ensures "section" in m && m["section"] == "performance"
  {
    Metadata("performance", "performance_data")["pump_flow" := pumpFlow]
  }

  // The chunk records; each text is written out line by line.

  const Intro: Chunk := Chunk(
    "intro",
    "KEITH LeakProof Drive Overview:\n" +
    "The KEITH LeakProof Drive uses the same reliable WALKING FLOOR technology as the KEITH Running Floor II drive. \n" +
    "It features ponding ability of up to 12 inches, sealed interlocking leak-proof sub-deck to hold liquids inside trailer,\n" +
    "and is designed for superior clean out with fast unloading speed. The drive unit chamber is separate and free from \n" +
    "exposure to corrosive liquids.",
    Metadata("overview", "introduction"))

  const Applications: Chunk := Chunk(
    "applications",
    "Ideal Applications for LeakProof Drive:\n" +
    "- Municipal Solid Waste\n" +
    "- Medical Waste\n" +
    "- Silage\n" +
    "- Cannery Waste\n" +
    "The LeakProof Drive is specifically designed for high-moisture loads and can be top or rear loaded. \n" +
    "It is compactor compatible.",
    Metadata("applications", "use_cases"))

  const KeyFeatures: Chunk := Chunk(
    "key_features",
    "Key Features of LeakProof Drive:\n" +
    "- Ponding ability of up to 12 inches\n" +
    "- Designed for superior clean out\n" +
    "- Sealed, interlocking leak-proof sub-deck holds liquids inside trailer\n" +
    "- Fast unloading speed\n" +
    "- Drive unit chamber is separate, free from exposure to corrosive liquids\n" +
    "- Interchangeable cylinders are easy to remove for service\n" +
    "- Durable and low in maintenance\n" +
    "- Hydraulic cylinders feature two rods and two pistons for performance\n" +
    "- Chromation helps protect aluminum components from corrosion\n" +
    "- Front mounted drive unit",
    Metadata("features", "specifications"))

  const HydraulicSpecs: Chunk := Chunk(
    "hydraulic_specs",
    "Hydraulic Drive Unit Specifications:\n" +
    "- Cylinder Bore Size: 80 mm or 90 mm\n" +
    "- Cylinder Stroke: 6 inches (150 mm)\n" +
    "- Maximum Working Pressure: 3000 PSI (210 bar)\n" +
    "- Maximum Pump Flow: 40 gallon/minute (151 l/min)\n" +
    "- Load Capacity: Exceeds Legal Limit",
    Metadata("specifications", "technical_specs"))

  const Performance15gpm: Chunk := Chunk(
    "performance_15gpm",
    "Performance at 15 gallons/minute (57 l/minute):\n" +
    "- Floor Speed: 3.75 ft/minute (1.15 m/minute)\n" +
    "- Unloading Time for 45 ft Trailer: 12 minutes",
    PerformanceMetadata("15"))

  const Performance20gpm: Chunk := Chunk(
    "performance_20gpm",
    "Performance at 20 gallons/minute (76 l/minute):\n" +
    "- Floor Speed: 5 ft/minute (1.5 m/minute)\n" +
    "- Unloading Time for 45 ft Trailer: 9 minutes",
    PerformanceMetadata("20"))

  const Performance25gpm: Chunk := Chunk(
    "performance_25gpm",
    "Performance at 25 gallons/minute (95 l/minute):\n" +
    "- Floor Speed: 6.25 ft/minute (1.9 m/minute)\n" +
    "- Unloading Time for 45 ft Trailer: 7.2 minutes",
    PerformanceMetadata("25"))

  const Performance30gpm: Chunk := Chunk(
    "performance_30gpm",
    "Performance at 30 gallons/minute (114 l/minute):\n" +
    "- Floor Speed: 7.5 ft/minute (2.3 m/minute)\n" +
    "- Unloading Time for 45 ft Trailer: 6 minutes",
    PerformanceMetadata("30"))

  const Performance40gpm: Chunk := Chunk(
    "performance_40gpm",
    "Performance at 40 gallons/minute (151 l/minute):\n" +
    "- Floor Speed: 9.75 ft/minute (3 m/minute)\n" +
    "- Unloading Time for 45 ft Trailer: 4.5 minutes (80mm cylinder only)\n" +
    "Note: Unload/Load times may vary with length of trailer, material type, or other environmental variables.",
    PerformanceMetadata("40"))

  const ValveDesign: Chunk := Chunk(
    "valve_design",
    "Innovative Valve Design Features:\n" +
    "- Valve assemblies are easily removed for maintenance\n" +
    "- Patented switching valve design provides excellent tolerance of dirt and foreign material\n" +
    "- Pilot operated switching valve eliminates need for switching valve adjustment\n" +
    "- Requires less maintenance and repair than other brands",
    Metadata("features", "valve_design"))

  const CylinderDesign: Chunk := Chunk(
    "cylinder_design",
    "Superior Cylinder Design and Construction:\n" +
    "- All three double cylinders are independently removable for ease of maintenance\n" +
    "- The barrel, not the rod, is indexed for increased strength\n" +
    "- The only system with two rods and two pistons for maximum performance",
    Metadata("features", "cylinder_design"))

  const DriveDesign: Chunk := Chunk(
    "drive_design",
    "Drive Design Features:\n" +
    "- Cross-drives are mounted to the cylinder barrels, eliminating flexing of the rod during high-speed operation\n" +
    "- Drive unit is virtually maintenance free\n" +
    "- Designed for easy installation and service",
    Metadata("features", "drive_design"))

  const ContactInfo: Chunk := Chunk(
    "contact_info",
    "KEITH Manufacturing Co. Contact Information:\n" +
    "World Headquarters: Madras, OR USA\n" +
    "Phone: (541) 475-3802\n" +
    "Email: sales@keithwalkingfloor.com\n" +
    "Website: www.keithwalkingfloor.com\n" +
    "\n" +
    "Regional Contacts:\n" +
    "- Canada: canadasales@keithwalkingfloor.com\n" +
    "- M\U{221A}\U{A9}xico: kmc_mexico@keithwalkingfloor.com\n" +
    "- Australia: ausales@keithwalkingfloor.com\n" +
    "- Europe: eurosales@keithwalkingfloor.com",
    Metadata("contact", "contact_information"))
}
