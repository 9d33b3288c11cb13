/** The two acquisition modes of the headset and their textual names. */
module WorkModes {
  import opened Wrappers

  datatype WorkMode = Calibration | Extraction

  /** The display name of a mode. */
  function ToString(m: WorkMode): (s: string)
  {
    match m
    case Calibration => "Calibration"
    case Extraction => "Extraction"
  }

  /** Parses a mode name; only the two exact names are accepted. */
  function FromString(s: string): (r: Option<WorkMode>)
  {
    if s == "Calibration" then Some(Calibration)
    else if s == "Extraction" then Some(Extraction)
    else None
  }

  /** Printing a mode and parsing it back gives the same mode. */
  lemma FromStringToString(m: WorkMode)
    ensures FromString(ToString(m)) == Some(m)
  {
  }

  /** A name is accepted exactly when it is the name of some mode, and then it names that mode. */
  lemma FromStringAcceptsOnlyNames(s: string)
    ensures FromString(s).Some? <==> (s == ToString(Calibration) || s == ToString(Extraction))
    ensures FromString(s).Some? ==> ToString(FromString(s).value) == s
  {
  }

  /** The two modes have different names. */
  lemma ToStringInjective(m: WorkMode, n: WorkMode)
    requires ToString(m) == ToString(n)
    ensures m == n
  {
  }
}
