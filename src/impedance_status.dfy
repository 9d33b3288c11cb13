/**
 * The capture tool's impedance classification: a reading in kilo-ohms is
 * put in one of five levels, and each level has a terminal colour, a
 * symbol and a message. The tool exists in an English and an older Spanish
 * copy that differ only in their texts.
 */
module ImpedanceStatus {
  /** Which copy of the tool: the English one or the older Spanish one. */
  datatype Language = English | Spanish

  /** Level limits, in kilo-ohms. */
  const TooLow: real := 200.0
  const Excellent: real := 800.0
  const Acceptable: real := 1500.0
  const Poor: real := 2000.0

  /** A classification: the status text and its level (1 best, 4 poor contact, 5 contact too strong). */
  datatype Status = Status(text: string, level: nat)

  function ImpedanceStatusOf(value: real, lang: Language): Status
  {
    if value < TooLow then Status(if lang == English then "CRITICAL LOW" else "CRÍTICO BAJO", 5)
    else if value < Excellent then Status(if lang == English then "EXCELLENT" else "EXCELENTE", 1)
    else if value < Acceptable then Status(if lang == English then "ACCEPTABLE" else "ACEPTABLE", 2)
    else if value < Poor then Status(if lang == English then "CHECK" else "REVISAR", 3)
    else Status(if lang == English then "CRITICAL HIGH" else "CRÍTICO ALTO", 4)
  }

  /** The five bands, each in both directions: every reading gets exactly one level, from 1 to 5. */
  lemma LevelBands(value: real, lang: Language)
    ensures 1 <= ImpedanceStatusOf(value, lang).level <= 5
    ensures ImpedanceStatusOf(value, lang).level == 5 <==> value < 200.0
    ensures ImpedanceStatusOf(value, lang).level == 1 <==> 200.0 <= value < 800.0
    ensures ImpedanceStatusOf(value, lang).level == 2 <==> 800.0 <= value < 1500.0
    ensures ImpedanceStatusOf(value, lang).level == 3 <==> 1500.0 <= value < 2000.0
    ensures ImpedanceStatusOf(value, lang).level == 4 <==> 2000.0 <= value
  {
  }

  /** From 200 kilo-ohms up, a higher reading never gets a better level. */
  lemma LevelMonotone(a: real, b: real, lang: Language)
    requires TooLow <= a <= b
    ensures ImpedanceStatusOf(a, lang).level <= ImpedanceStatusOf(b, lang).level
  {
  }

  /** Both copies put every reading in the same level. */
  lemma CopiesAgreeOnLevels(value: real)
    ensures ImpedanceStatusOf(value, English).level == ImpedanceStatusOf(value, Spanish).level
  {
  }

  datatype TerminalColor = Green | Yellow | Magenta | Red

  function ColorForLevel(level: int): TerminalColor
  {
    if level == 1 then Green
    else if level == 2 then Yellow
    else if level == 3 then Magenta
    else Red
  }

  /** The symbol and the message shown for a level. */
  function SymbolAndMessage(level: int, lang: Language): (string, string)
  {
    if level == 1 then ("✓", if lang == English then "Optimal contact" else "Contacto óptimo")
    else if level == 2 then ("⚠", if lang == English then "Acceptable contact" else "Contacto aceptable")
    else if level == 3 then ("!", if lang == English then "Adjust position" else "Ajustar posición")
    else if level == 4 then ("✗", if lang == English then "Poor contact, reposition" else "Mal contacto, recolocar")
    else ("✗", if lang == English then "Contact too strong or short-circuit" else "Contacto demasiado fuerte o cortocircuito")
  }

  /** Red and the cross go together: a level is shown red exactly when its symbol is the cross. */
  lemma ColorAgreesWithSymbol(level: int, lang: Language)
    ensures ColorForLevel(level) == Red <==> SymbolAndMessage(level, lang).0 == "✗"
    ensures ColorForLevel(level) == Red <==> !(1 <= level <= 3)
  {
  }

  /** Readings outside 200..2000 kilo-ohms are shown red with a cross; the others are not. */
  lemma CriticalReadingsShowRed(value: real, lang: Language)
    ensures ColorForLevel(ImpedanceStatusOf(value, lang).level) == Red <==> value < TooLow || Poor <= value
    ensures SymbolAndMessage(ImpedanceStatusOf(value, lang).level, lang).0 == "✗" <==> value < TooLow || Poor <= value
  {
    ColorAgreesWithSymbol(ImpedanceStatusOf(value, lang).level, lang);
  }
}
