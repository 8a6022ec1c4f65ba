/** The JSON files the pipeline writes into the analysis directory. */
module Outputs {
  import opened Common
  import opened Dicts
  import opened Naming
  import opened Colors
  import opened Manifests

  /** One `json.dump` of the pipeline, with the dict it dumps. */
  datatype JsonFile =
    | RecordedSegmentsJson(table: Dict<string, Marker>)
    | FiSimsJson(manifest: Dict<string, ManifestEntry>)
    | InputMarksJson(marks: Dict<nat, Marker>)
    | PoissonSimsJson(manifest: Dict<string, ManifestEntry>)

  /** JSON object keys are strings: `json.dump` writes the integer segment ids of the input marks as `str(id)`. */
  function JsonKeys(marks: Dict<nat, Marker>): seq<string>
  {
    seq(|marks.keys|, i requires 0 <= i < |marks.keys| => NatToString(marks.keys[i]))
  }

  /** Writing the ids as numerals merges no two marks: the dumped keys are distinct exactly when the ids are. */
  lemma JsonKeysDistinct(marks: Dict<nat, Marker>)
    ensures Distinct(marks.keys) <==> Distinct(JsonKeys(marks))
  {
    var ks := JsonKeys(marks);
    forall i, j | 0 <= i < j < |ks| ensures ks[i] == ks[j] <==> marks.keys[i] == marks.keys[j] {
      NatToStringInjective(marks.keys[i], marks.keys[j]);
    }
  }
}
