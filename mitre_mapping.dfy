/** The MITRE ATT&CK technique table and its lookups: sub-technique suffixes are
    ignored, unknown ids give nothing. */
module MitreMapping {
  import opened Wrappers
  import opened Seqs
  import opened Text

  datatype Technique = Technique(
    techniqueId: string,
    techniqueName: string,
    tactic: string,
    description: string,
    subTechniques: seq<string>)

  /** MITRE_ATTACK_MAPPING, key by key in the order written, held as two columns:
      each technique's name and tactic, and its description and sub-techniques.
      get_mitre_info joins the two rows of a key into one entry. */
  const TECHNIQUE_NAMES: seq<(string, (string, string))> := [
    ("T1110", ("Brute Force", "Credential Access")),
    ("T1190", ("Exploit Public-Facing Application", "Initial Access")),
    ("T1498", ("Network Denial of Service", "Impact")),
    ("T1486", ("Data Encrypted for Impact", "Impact")),
    ("T1046", ("Network Service Discovery", "Discovery")),
    ("T1041", ("Exfiltration Over C2 Channel", "Exfiltration")),
    ("T1048", ("Exfiltration Over Alternative Protocol", "Exfiltration")),
    ("T1204", ("User Execution", "Execution"))
  ]

  const TECHNIQUE_DETAILS: seq<(string, (string, seq<string>))> := [
    ("T1110", ("Adversaries may use brute force techniques to gain access to accounts",
      ["T1110.001 - Password Guessing", "T1110.002 - Password Cracking",
       "T1110.003 - Password Spraying", "T1110.004 - Credential Stuffing"])),
    ("T1190", ("Adversaries may exploit vulnerabilities in Internet-facing software",
      ["SQL Injection", "Command Injection", "Cross-Site Scripting (XSS)"])),
    ("T1498", ("Adversaries may perform Network DoS attacks to degrade or block availability",
      ["T1498.001 - Direct Network Flood", "T1498.002 - Reflection Amplification"])),
    ("T1486", ("Adversaries may encrypt data on target systems to interrupt availability", [])),
    ("T1046", ("Adversaries may attempt to get a listing of services running on remote hosts", [])),
    ("T1041", ("Adversaries may steal data by exfiltrating it over an existing C2 channel", [])),
    ("T1048", ("Adversaries may steal data using a protocol other than the existing C2 channel",
      ["T1048.001 - Exfiltration Over Symmetric Encrypted Non-C2 Protocol",
       "T1048.002 - Exfiltration Over Asymmetric Encrypted Non-C2 Protocol",
       "T1048.003 - Exfiltration Over Unencrypted/Obfuscated Non-C2 Protocol"])),
    ("T1204", ("An adversary may rely upon specific actions by a user in order to gain execution",
      ["T1204.001 - Malicious Link", "T1204.002 - Malicious File"]))
  ]

  const KNOWN_IDS: seq<string> := ["T1110", "T1190", "T1498", "T1486", "T1046", "T1041", "T1048", "T1204"]

  /** The name column is keyed by the eight known ids, each once. */
  lemma NamesShape()
    ensures |TECHNIQUE_NAMES| == 8 && NoDup(KNOWN_IDS)
    ensures forall k :: 0 <= k < 8 ==> TECHNIQUE_NAMES[k].0 == KNOWN_IDS[k]
  {
  }

  /** The detail column is keyed by the same ids in the same order. */
  lemma DetailsShape()
    ensures |TECHNIQUE_DETAILS| == 8
    ensures forall k :: 0 <= k < 8 ==> TECHNIQUE_DETAILS[k].0 == KNOWN_IDS[k]
  {
  }

  /** The id with any sub-technique suffix (from the first ".") removed. */
  function BaseId(techniqueId: string): (b: string)
    ensures '.' !in techniqueId ==> b == techniqueId
  {
    assert '.' !in techniqueId ==> !Contains(techniqueId, ".") by {
      if '.' !in techniqueId {
        NotContainsChar(techniqueId, '.');
      }
    }
    if Contains(techniqueId, ".") then Split(techniqueId, ".")[0] else techniqueId
  }

  /** get_mitre_info: the entry under the base id, None when it is not a key. */
  function GetMitreInfo(techniqueId: string): (r: Option<Technique>)
    ensures r.Some? <==> BaseId(techniqueId) in KNOWN_IDS
    ensures r.Some? ==> r.value.techniqueId == BaseId(techniqueId)
  {
    var base := BaseId(techniqueId);
    FindKnown(base);
    match (Find(TECHNIQUE_NAMES, base), Find(TECHNIQUE_DETAILS, base))
    case (Some(names), Some(details)) => Some(Technique(base, names.0, names.1, details.0, details.1))
    case _ => None
  }

  /** Both columns find exactly the known ids. */
  lemma FindKnown(id: string)
    ensures Find(TECHNIQUE_NAMES, id).Some? <==> id in KNOWN_IDS
    ensures Find(TECHNIQUE_DETAILS, id).Some? <==> id in KNOWN_IDS
  {
    FindKnownName(id);
    DetailsShape();
    if id in KNOWN_IDS {
      var k :| 0 <= k < 8 && KNOWN_IDS[k] == id;
      assert TECHNIQUE_DETAILS[k].0 == id;
    }
  }

  /** The name column finds exactly the known ids. */
  lemma FindKnownName(id: string)
    ensures Find(TECHNIQUE_NAMES, id).Some? <==> id in KNOWN_IDS
  {
    NamesShape();
    if id in KNOWN_IDS {
      var k :| 0 <= k < 8 && KNOWN_IDS[k] == id;
      assert TECHNIQUE_NAMES[k].0 == id;
    }
  }

  /** The technique name of the entry under the base id, read from the name
      column alone; None when the id is not a key. */
  function TechniqueName(techniqueId: string): (name: Option<string>)
    ensures name.Some? <==> BaseId(techniqueId) in KNOWN_IDS
  {
    FindKnownName(BaseId(techniqueId));
    match Find(TECHNIQUE_NAMES, BaseId(techniqueId))
    case Some(names) => Some(names.0)
    case None => None
  }

  /** TechniqueName is the name get_mitre_info's entry carries. */
  lemma TechniqueNameOfInfo(techniqueId: string)
    ensures TechniqueName(techniqueId) ==
      (match GetMitreInfo(techniqueId)
       case Some(info) => Some(info.techniqueName)
       case None => None)
  {
    FindKnown(BaseId(techniqueId));
  }

  /** A sub-technique id finds the same entry as its parent technique id. */
  lemma SubTechniqueIgnored(base: string, suffix: string)
    requires '.' !in base
    ensures GetMitreInfo(base + "." + suffix) == GetMitreInfo(base)
  {
    var id := base + "." + suffix;
    assert id == base + ['.'] + suffix;
    SplitFirstPiece(base, '.', suffix);
    assert OccursAt(id, ".", |base|) by {
      assert id[|base|..|base| + 1] == ".";
    }
  }

  /** get_technique_name: the entry's name, or the id itself when it is unknown. */
  function GetTechniqueName(techniqueId: string): (name: string)
    ensures GetMitreInfo(techniqueId).None? ==> name == techniqueId
    ensures GetMitreInfo(techniqueId).Some? ==> name == GetMitreInfo(techniqueId).value.techniqueName
  {
    match GetMitreInfo(techniqueId)
    case Some(info) => info.techniqueName
    case None => techniqueId
  }

  /** get_tactic: the entry's tactic, or None when the id is unknown. */
  function GetTactic(techniqueId: string): (tactic: Option<string>)
    ensures tactic.Some? <==> BaseId(techniqueId) in KNOWN_IDS
    ensures tactic.Some? ==> tactic.value == GetMitreInfo(techniqueId).value.tactic
  {
    match GetMitreInfo(techniqueId)
    case Some(info) => Some(info.tactic)
    case None => None
  }

  /** The three fields enrich_with_mitre returns. */
  datatype Enrichment = Enrichment(mitreAttackId: Option<string>, mitreAttackName: Option<string>, mitreTactic: Option<string>)

  /** enrich_with_mitre: nothing for a missing or empty id; otherwise the id as
      given (suffix kept) with the entry's name and tactic, which are None when the
      id is unknown. */
  function EnrichWithMitre(techniqueId: Option<string>): (e: Enrichment)
    ensures techniqueId.None? || techniqueId == Some("") ==> e == Enrichment(None, None, None)
    ensures techniqueId.Some? && techniqueId.value != "" ==> e.mitreAttackId == techniqueId
    ensures e.mitreAttackName.Some? <==> e.mitreTactic.Some?
    ensures e.mitreAttackName.Some? ==> techniqueId.Some? && BaseId(techniqueId.value) in KNOWN_IDS
    ensures techniqueId.Some? && techniqueId.value != "" && BaseId(techniqueId.value) in KNOWN_IDS ==>
      e.mitreAttackName == Some(GetTechniqueName(techniqueId.value)) && e.mitreTactic == GetTactic(techniqueId.value)
  {
    if techniqueId.None? || techniqueId.value == "" then Enrichment(None, None, None)
    else
      match GetMitreInfo(techniqueId.value)
      case Some(info) => Enrichment(techniqueId, Some(info.techniqueName), Some(info.tactic))
      case None => Enrichment(techniqueId, None, None)
  }
}
