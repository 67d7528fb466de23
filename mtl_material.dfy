/**
 * The material record (`MtlMaterial`), its colour triple (`MtlColor`) and the
 * map placeholder (`MtlMap`, of which only the name is ever set), with the
 * defaults the constructor gives every field.
 */
module MtlMaterial {
  import opened NumberConversion

  /** An RGB triple; each channel is the exact value of the number read for it. */
  datatype Color = Color(red: real, green: real, blue: real)

  /** A texture map reference; the constructor only stores its role name. */
  datatype Map = Map(name: string)

  /** One `newmtl` block. C `int` fields are `Int32`, C `float` fields `real`. */
  datatype Material = Material(
    name: string,
    ambientColor: Color,         // Ka
    diffuseColor: Color,         // Kd
    specularColor: Color,        // Ks
    transformFilter: Color,      // Tf
    illumination: Int32,         // illum
    dissolve: real,              // d
    dissolveHalo: bool,          // -halo option of d
    specularExponent: Int32,     // Ns
    sharpness: Int32,            // sharpness
    opticalDensity: real,        // Ni
    mapAmbientColor: Map,        // map_Ka
    mapDiffuseColor: Map,        // map_Kd
    mapSpecularColor: Map,       // map_Ks
    mapSpecularExponent: Map,    // map_Ns
    mapAntiAliasingTextures: bool, // map_aat
    decal: Map,                  // decal
    disposition: Map)            // disp

  const Black := Color(0.0, 0.0, 0.0)

  /**
   * The constructor leaves `transformFilter` and `dissolveHalo` uninitialised;
   * the model gives them these fixed, otherwise arbitrary values.
   */
  const UnsetTransformFilter := Color(0.0, 0.0, 0.0)
  const UnsetDissolveHalo := false

  /** The six map role names, in declaration order. */
  function MapNames(m: Material): seq<string>
  {
    [m.mapAmbientColor.name, m.mapDiffuseColor.name, m.mapSpecularColor.name,
     m.mapSpecularExponent.name, m.decal.name, m.disposition.name]
  }

  /** `new MtlMaterial(matName)`. */
  function NewMaterial(matName: string): (m: Material)
    ensures m.name == matName
    ensures m.illumination == 0 && m.dissolve == 0.0 && m.specularExponent == 0
    ensures m.sharpness == 0 && m.opticalDensity == 0.0
    ensures m.ambientColor == m.diffuseColor == m.specularColor == Color(0.0, 0.0, 0.0)
    ensures MapNames(m) == ["ambient", "diffuse", "specular color", "specular exponent", "decal", "disposition"]
    ensures !m.mapAntiAliasingTextures
  {
    Material(
      name := matName,
      ambientColor := Black, diffuseColor := Black, specularColor := Black,
      transformFilter := UnsetTransformFilter,
      illumination := 0, dissolve := 0.0, dissolveHalo := UnsetDissolveHalo,
      specularExponent := 0, sharpness := 0, opticalDensity := 0.0,
      mapAmbientColor := Map("ambient"), mapDiffuseColor := Map("diffuse"),
      mapSpecularColor := Map("specular color"), mapSpecularExponent := Map("specular exponent"),
      mapAntiAliasingTextures := false,
      decal := Map("decal"), disposition := Map("disposition"))
  }

  /** `MtlMaterial()`: the default argument is the empty name. */
  function DefaultMaterial(): (m: Material)
    ensures m.name == []
  {
    NewMaterial("")
  }
}
