/**
 * The shared configuration object of the API and the three configuration classes that fill
 * it and read it back: the general settings (gender codes, defaults for new records), the STU3
 * claim codes and the R4 location role-type codes. A getter reads one code table of the
 * configuration and falls back to a documented literal when the key is absent.
 */
module Configuration {
  import opened Wrappers

  /** A value of the module configuration dictionary: a scalar setting or a table of codes. */
  datatype Setting = Scalar(text: string) | Table(codes: map<string, string>)

  /** Why a configuration read or build failed (the Python exception raised). */
  datatype ConfigError =
    | KeyError(key: string)          // `cfg[key]` on a missing key
    | AttributeError(attr: string)   // reading an attribute `build_configuration` never set
    | NotATable(attr: string)        // `.get` on a setting that is not a dictionary

  /** The attributes `GeneralConfiguration.build_configuration` copies, in source order. */
  const GeneralKeys: seq<string> := [
    "default_audit_user_id", "iso_date_format", "iso_datetime_format", "gender_codes",
    "default_value_of_patient_head_attribute", "default_value_of_patient_card_issued_attribute",
    "default_value_of_location_offline_attribute", "default_value_of_location_care_type"]

  const Stu3ClaimKey := "stu3_fhir_claim_config"
  const R4LocationRoleTypeKey := "R4_fhir_location_role_type"

  /**
   * Copying `keys` from `cfg` one after the other: the attributes after the copy and the first
   * key found missing, at which point the copy stops (the earlier assignments stay done).
   */
  function CopyKeys(attrs: map<string, Setting>, cfg: map<string, Setting>, keys: seq<string>)
    : (map<string, Setting>, Option<string>)
    decreases |keys|
  {
    if keys == [] then (attrs, None)
    else if keys[0] !in cfg then (attrs, Some(keys[0]))
    else CopyKeys(attrs[keys[0] := cfg[keys[0]]], cfg, keys[1..])
  }

  /** When every key is present, the copy sets exactly those keys to the values of `cfg`. */
  lemma {:induction false} CopyKeysComplete(attrs: map<string, Setting>, cfg: map<string, Setting>, keys: seq<string>)
    requires forall k :: k in keys ==> k in cfg
    ensures CopyKeys(attrs, cfg, keys).1 == None
    ensures CopyKeys(attrs, cfg, keys).0 == attrs + map k | k in keys :: cfg[k]
    decreases |keys|
  {
    if keys != [] {
      CopyKeysComplete(attrs[keys[0] := cfg[keys[0]]], cfg, keys[1..]);
      var rest := map k | k in keys[1..] :: cfg[k];
      assert attrs[keys[0] := cfg[keys[0]]] + rest == attrs + map k | k in keys :: cfg[k];
    }
  }

  /**
   * When a key is missing, the copy reports the first missing one and every attribute it
   * touched is one of `keys`, holding the value `cfg` gives it.
   */
  lemma {:induction false} CopyKeysStops(attrs: map<string, Setting>, cfg: map<string, Setting>, keys: seq<string>, i: nat)
    requires i < |keys| && keys[i] !in cfg && forall j :: 0 <= j < i ==> keys[j] in cfg
    ensures CopyKeys(attrs, cfg, keys).1 == Some(keys[i])
    ensures forall k :: k in CopyKeys(attrs, cfg, keys).0 ==>
      (k in attrs && CopyKeys(attrs, cfg, keys).0[k] == attrs[k]) || (k in keys[..i] && CopyKeys(attrs, cfg, keys).0[k] == cfg[k])
    decreases i
  {
    if i > 0 {
      CopyKeysStops(attrs[keys[0] := cfg[keys[0]]], cfg, keys[1..], i - 1);
      forall k | k in keys[1..][..i - 1] ensures k in keys[..i] {
        var j :| 0 <= j < i - 1 && keys[1..][..i - 1][j] == k;
        assert keys[..i][j + 1] == k;
      }
    }
  }

  /** `dict.get(key, default)` on a table of codes. */
  function Get(table: map<string, string>, key: string, default: string): (r: string)
    ensures key in table ==> r == table[key]
    ensures key !in table ==> r == default
  {
    if key in table then table[key] else default
  }

  /** The singleton configuration object that every configuration class writes and reads. */
  class Config {
    var attrs: map<string, Setting>

    constructor()
      ensures attrs == map[]
    {
      attrs := map[];
    }

    /**
     * `GeneralConfiguration.build_configuration`: copy the eight general keys in order; a
     * missing key raises `KeyError` after the keys before it have been stored.
     */
    method BuildGeneral(cfg: map<string, Setting>) returns (r: Option<ConfigError>)
      modifies this
      ensures r.Some? ==> r.value.KeyError?
      ensures (attrs, if r.Some? && r.value.KeyError? then Some(r.value.key) else None) == CopyKeys(old(attrs), cfg, GeneralKeys)
    {
      var i := 0;
      while i < |GeneralKeys|
        invariant 0 <= i <= |GeneralKeys|
        invariant CopyKeys(old(attrs), cfg, GeneralKeys) == CopyKeys(attrs, cfg, GeneralKeys[i..])
      {
        var key := GeneralKeys[i];
        assert GeneralKeys[i..][0] == key && GeneralKeys[i..][1..] == GeneralKeys[i + 1..];
        if key !in cfg {
          return Some(KeyError(key));
        }
        attrs := attrs[key := cfg[key]];
        i := i + 1;
      }
      return None;
    }

    /** `build_configuration` of a class that stores one key of `cfg` and nothing else. */
    method BuildOne(cfg: map<string, Setting>, key: string) returns (r: Option<ConfigError>)
      modifies this
      ensures key in cfg ==> attrs == old(attrs)[key := cfg[key]] && r == None
      ensures key !in cfg ==> attrs == old(attrs) && r == Some(KeyError(key))
    {
      if key !in cfg {
        return Some(KeyError(key));
      }
      attrs := attrs[key := cfg[key]];
      return None;
    }

    /** `Stu3ClaimConfig.build_configuration`. */
    method BuildStu3Claim(cfg: map<string, Setting>) returns (r: Option<ConfigError>)
      modifies this
      ensures Stu3ClaimKey in cfg ==> attrs == old(attrs)[Stu3ClaimKey := cfg[Stu3ClaimKey]] && r == None
      ensures Stu3ClaimKey !in cfg ==> attrs == old(attrs) && r == Some(KeyError(Stu3ClaimKey))
    {
      r := BuildOne(cfg, Stu3ClaimKey);
    }

    /** `R4LocationConfig.build_configuration`. */
    method BuildR4Location(cfg: map<string, Setting>) returns (r: Option<ConfigError>)
      modifies this
      ensures R4LocationRoleTypeKey in cfg ==> attrs == old(attrs)[R4LocationRoleTypeKey := cfg[R4LocationRoleTypeKey]] && r == None
      ensures R4LocationRoleTypeKey !in cfg ==> attrs == old(attrs) && r == Some(KeyError(R4LocationRoleTypeKey))
    {
      r := BuildOne(cfg, R4LocationRoleTypeKey);
    }

    /** Reading a stored attribute unchanged (the plain getters of `GeneralConfiguration`). */
    function Attr(name: string): (r: Result<Setting, ConfigError>)
      reads this
      ensures r.Success? <==> name in attrs
      ensures r.Success? ==> r.value == attrs[name]
      ensures r.Failure? ==> r.error == AttributeError(name)
    {
      if name in attrs then Success(attrs[name]) else Failure(AttributeError(name))
    }

    /** `get_config().<table>.get(key, default)`. */
    function CodeOr(table: string, key: string, default: string): (r: Result<string, ConfigError>)
      reads this
      ensures r.Success? <==> table in attrs && attrs[table].Table?
      ensures r.Success? && key in attrs[table].codes ==> r.value == attrs[table].codes[key]
      ensures r.Success? && key !in attrs[table].codes ==> r.value == default
    {
      if table !in attrs then Failure(AttributeError(table))
      else match attrs[table]
        case Table(codes) => Success(Get(codes, key, default))
        case Scalar(_) => Failure(NotATable(table))
    }

    function MaleGenderCode(): Result<string, ConfigError> reads this { CodeOr("gender_codes", "male", "M") }
    function FemaleGenderCode(): Result<string, ConfigError> reads this { CodeOr("gender_codes", "female", "F") }
    function OtherGenderCode(): Result<string, ConfigError> reads this { CodeOr("gender_codes", "other", "O") }

    function ClaimGuaranteeIdCode(): Result<string, ConfigError> reads this {
      CodeOr(Stu3ClaimKey, "fhir_claim_information_guarantee_id_code", "guarantee_id")
    }
    function ClaimExplanationCode(): Result<string, ConfigError> reads this {
      CodeOr(Stu3ClaimKey, "fhir_claim_information_explanation_code", "explanation")
    }
    function ClaimItemCode(): Result<string, ConfigError> reads this { CodeOr(Stu3ClaimKey, "fhir_claim_item_code", "item") }
    function ClaimServiceCode(): Result<string, ConfigError> reads this { CodeOr(Stu3ClaimKey, "fhir_claim_service_code", "service") }
    function ClaimRejectedCode(): Result<string, ConfigError> reads this {
      CodeOr(Stu3ClaimKey, "fhir_claim_status_rejected_code", "rejected")
    }
    function ClaimEnteredCode(): Result<string, ConfigError> reads this {
      CodeOr(Stu3ClaimKey, "fhir_claim_status_entered_code", "entered")
    }
    function ClaimCheckedCode(): Result<string, ConfigError> reads this {
      CodeOr(Stu3ClaimKey, "fhir_claim_status_checked_code", "checked")
    }
    function ClaimProcessedCode(): Result<string, ConfigError> reads this {
      CodeOr(Stu3ClaimKey, "fhir_claim_status_processed_code", "processed")
    }
    function ClaimValuatedCode(): Result<string, ConfigError> reads this {
      CodeOr(Stu3ClaimKey, "fhir_claim_status_valuated_code", "valuated")
    }

    function LocationRoleTypeSystem(): Result<string, ConfigError> reads this {
      CodeOr(R4LocationRoleTypeKey, "system", RoleTypeSystemDefault)
    }
    function HospitalCode(): Result<string, ConfigError> reads this { CodeOr(R4LocationRoleTypeKey, "fhir_code_for_hospital", "HOSP") }
    function DispensaryCode(): Result<string, ConfigError> reads this { CodeOr(R4LocationRoleTypeKey, "fhir_code_for_dispensary", "CSC") }
    function HealthCenterCode(): Result<string, ConfigError> reads this { CodeOr(R4LocationRoleTypeKey, "fhir_code_for_health_center", "PC") }
  }

  const RoleTypeSystemDefault := "http://hl7.org/fhir/v3/ServiceDeliveryLocationRoleType/vs.html"

  /** With an empty `gender_codes` table the three gender getters give "M", "F", "O". */
  lemma GenderDefaults(c: Config)
    requires "gender_codes" in c.attrs && c.attrs["gender_codes"] == Table(map[])
    ensures c.MaleGenderCode() == Success("M")
    ensures c.FemaleGenderCode() == Success("F")
    ensures c.OtherGenderCode() == Success("O")
  {
  }

  /** The STU3 claim defaults, in particular five pairwise distinct status codes. */
  lemma ClaimDefaults(c: Config)
    requires Stu3ClaimKey in c.attrs && c.attrs[Stu3ClaimKey] == Table(map[])
    ensures c.ClaimItemCode() == Success("item") && c.ClaimServiceCode() == Success("service")
    ensures c.ClaimGuaranteeIdCode() == Success("guarantee_id") && c.ClaimExplanationCode() == Success("explanation")
    ensures var s := [c.ClaimRejectedCode(), c.ClaimEnteredCode(), c.ClaimCheckedCode(),
                      c.ClaimProcessedCode(), c.ClaimValuatedCode()];
      s == [Success("rejected"), Success("entered"), Success("checked"), Success("processed"), Success("valuated")]
      && forall i, j :: 0 <= i < j < |s| ==> s[i] != s[j]
  {
  }

  /** The R4 location defaults: the role-type URL and three distinct level codes. */
  lemma LocationDefaults(c: Config)
    requires R4LocationRoleTypeKey in c.attrs && c.attrs[R4LocationRoleTypeKey] == Table(map[])
    ensures c.LocationRoleTypeSystem() == Success(RoleTypeSystemDefault)
    ensures c.HospitalCode() == Success("HOSP") && c.DispensaryCode() == Success("CSC") && c.HealthCenterCode() == Success("PC")
    ensures "HOSP" != "CSC" && "CSC" != "PC" && "HOSP" != "PC"
  {
  }

  /** A configured key overrides the default of its getter, whatever the default. */
  lemma ConfiguredOverrides(c: Config, table: string, key: string, d1: string, d2: string)
    requires table in c.attrs && c.attrs[table].Table? && key in c.attrs[table].codes
    ensures c.CodeOr(table, key, d1) == c.CodeOr(table, key, d2) == Success(c.attrs[table].codes[key])
  {
  }

}
