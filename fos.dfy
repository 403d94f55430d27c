/**
 * The fos-api value types the adapter consumes: attribute descriptions, model
 * configurations with their string properties, and the field values of a scorable row.
 * Only what the adapter reads of them is modelled.
 */
module Fos {

  import opened Outcomes
  import opened Text

  /** An attribute of a model: numeric, categorical (with its category values), or any other kind. */
  datatype Attribute =
    | Numeric(name: string)
    | Categorical(name: string, categories: seq<string>)
    | Other(name: string)

  /** ModelConfig: the attribute list and the string-valued properties. */
  datatype ModelConfig = ModelConfig(attributes: seq<Attribute>, properties: map<string, string>)

  /** A field of a scorable row: a String, any other object (by its toString text), or null. */
  datatype Value = Str(text: string) | Obj(text: string) | Null

  /** getProperty: the value, or null when the key is absent. */
  function Property(cfg: ModelConfig, key: string): Option<string> {
    if key in cfg.properties then Some(cfg.properties[key]) else None
  }

  /** setProperty: binds one key and leaves everything else as it was. */
  function WithProperty(cfg: ModelConfig, key: string, value: string): (r: ModelConfig)
    ensures Property(r, key) == Some(value)
    ensures r.attributes == cfg.attributes
    ensures forall k :: k != key ==> Property(r, k) == Property(cfg, k)
  {
    cfg.(properties := cfg.properties[key := value])
  }

  /** getIntProperty: the integer text of a property, parsed; an absent or malformed value fails. */
  function IntProperty(cfg: ModelConfig, key: string): (r: Result<int>)
    ensures r.Failure? ==> r.error == PropertyFailure(key)
  {
    match Property(cfg, key)
    case None => Failure(PropertyFailure(key))
    case Some(t) =>
      match ParseInt(t)
      case Some(i) => Success(i)
      case None => Failure(PropertyFailure(key))
  }

  /** An int property written with Integer.toString reads back as that int. */
  lemma IntPropertyOfToString(cfg: ModelConfig, key: string, i: int)
    requires IsInt32(i)
    ensures IntProperty(WithProperty(cfg, key, IntToString(i)), key) == Success(i)
  {
    ParseIntToString(i);
  }

  /**
   * ModelConfig.update, which is not part of this model: the newer attribute list replaces
   * the old one, and the newer properties are laid over the old ones.
   */
  function Merge(cfg: ModelConfig, newer: ModelConfig): (r: ModelConfig)
    ensures r.attributes == newer.attributes
    ensures forall k :: Property(r, k) == if k in newer.properties then Property(newer, k) else Property(cfg, k)
  {
    ModelConfig(newer.attributes, cfg.properties + newer.properties)
  }

  /** The text a field contributes to a row written with Joiner (toString; null has none). */
  function FieldText(v: Value): Option<string> {
    match v
    case Str(t) => Some(t)
    case Obj(t) => Some(t)
    case Null => None
  }
}
