/** The accessibility settings (EcoRutas-main/src/context/AccessibilityContext.tsx):
    interface language, font size on a four-step ladder, colour-blindness
    filter, dark mode and read-aloud. Settings are strings where the
    stored value is read back unchecked, so unknown values are possible. */
module Accessibility {
  import opened Common

  /** The font-size ladder, smallest first. */
  const Tamanos: seq<string> := ["small", "normal", "large", "extra-large"]

  /** `FONT_SIZE_MAP`, in tenths of a percent of the base font size. */
  function PorcentajeDe(tamano: string): Option<int> {
    if tamano == "small" then Some(875)
    else if tamano == "normal" then Some(1000)
    else if tamano == "large" then Some(1125)
    else if tamano == "extra-large" then Some(1250)
    else None
  }

  /** Every step of the ladder has a size, and each step is strictly
      larger than the one below it. */
  lemma PorcentajesCrecientes(i: nat, j: nat)
    requires i < j < |Tamanos|
    ensures PorcentajeDe(Tamanos[i]).Some? && PorcentajeDe(Tamanos[j]).Some?
    ensures PorcentajeDe(Tamanos[i]).value < PorcentajeDe(Tamanos[j]).value
  {
  }

  /** `sizes.indexOf(s)`: the position of `s` on the ladder, or -1. */
  function IndiceDe(s: string): (i: int)
    ensures -1 <= i < |Tamanos|
    ensures i >= 0 ==> Tamanos[i] == s
    ensures i == -1 <==> s !in Tamanos
  {
    if s == "small" then 0
    else if s == "normal" then 1
    else if s == "large" then 2
    else if s == "extra-large" then 3
    else -1
  }

  /** `increaseFontSize`: one step up; the top stays; a value not on the
      ladder (index -1) becomes the bottom step. */
  function Agrandar(s: string): (r: string)
    ensures r in Tamanos || r == s
    ensures r == s <==> s == "extra-large"
    ensures s !in Tamanos ==> r == Tamanos[0]
  {
    var i := IndiceDe(s);
    if i < |Tamanos| - 1 then Tamanos[i + 1] else s
  }

  /** `decreaseFontSize`: one step down; the bottom and unknown values stay. */
  function Achicar(s: string): (r: string)
    ensures r in Tamanos || r == s
    ensures r == s <==> s !in Tamanos[1..]
  {
    var i := IndiceDe(s);
    if i > 0 then Tamanos[i - 1] else s
  }

  /** Shrinking undoes a growth that happened, and growing undoes a shrink
      that happened; each real step changes the size in its direction. */
  lemma PasosInversos(s: string)
    requires s in Tamanos
    ensures s != "extra-large" ==> Achicar(Agrandar(s)) == s
    ensures s != "small" ==> Agrandar(Achicar(s)) == s
    ensures s != "extra-large" ==> PorcentajeDe(Agrandar(s)).value > PorcentajeDe(s).value
    ensures s != "small" ==> PorcentajeDe(Achicar(s)).value < PorcentajeDe(s).value
  {
  }

  /** `prev === 'es' ? 'en' : 'es'`. */
  function AlternarIdioma(idioma: string): (r: string)
    ensures r in {"es", "en"}
    ensures r == "en" <==> idioma == "es"
  {
    if idioma == "es" then "en" else "es"
  }

  /** Toggling twice is the identity exactly on the two known languages;
      any other stored language ends up as "en". */
  lemma AlternarDosVeces(idioma: string)
    ensures AlternarIdioma(AlternarIdioma(idioma)) == idioma <==> idioma in {"es", "en"}
    ensures idioma !in {"es", "en"} ==> AlternarIdioma(AlternarIdioma(idioma)) == "en"
  {
  }

  datatype ColorBlindnessType = NoFilter | Protanopia | Deuteranopia | Tritanopia

  function ColorBlindnessName(m: ColorBlindnessType): string {
    match m
    case NoFilter => "none"
    case Protanopia => "protanopia"
    case Deuteranopia => "deuteranopia"
    case Tritanopia => "tritanopia"
  }

  /** `stored || fallback`: a missing or empty stored value reads as the fallback. */
  function Guardado(stored: Option<string>, fallback: string): (r: string)
    ensures stored.Some? && stored.value != "" ==> r == stored.value
    ensures stored.None? || stored.value == "" ==> r == fallback
  {
    if stored.Some? && stored.value != "" then stored.value else fallback
  }

  class AccessibilityState {
    var language: string
    var fontSize: string
    var colorBlindnessMode: string
    var darkMode: bool
    var speechEnabled: bool
    var isSpeaking: bool

    /** The settings as read from storage on start-up. */
    constructor (storedLanguage: Option<string>, storedFontSize: Option<string>, storedColorBlindness: Option<string>,
                 storedDarkMode: Option<string>, storedSpeech: Option<string>)
      ensures language == Guardado(storedLanguage, "es")
      ensures fontSize == Guardado(storedFontSize, "normal")
      ensures colorBlindnessMode == Guardado(storedColorBlindness, "none")
      ensures darkMode == (storedDarkMode == Some("true"))
      ensures speechEnabled == (storedSpeech == Some("true"))
      ensures !isSpeaking
    {
      language := Guardado(storedLanguage, "es");
      fontSize := Guardado(storedFontSize, "normal");
      colorBlindnessMode := Guardado(storedColorBlindness, "none");
      darkMode := storedDarkMode == Some("true");
      speechEnabled := storedSpeech == Some("true");
      isSpeaking := false;
    }

    method ToggleLanguage()
      modifies this
      ensures language == AlternarIdioma(old(language))
      ensures fontSize == old(fontSize) && colorBlindnessMode == old(colorBlindnessMode)
      ensures darkMode == old(darkMode) && speechEnabled == old(speechEnabled) && isSpeaking == old(isSpeaking)
    {
      language := if language == "es" then "en" else "es";
    }

    method IncreaseFontSize()
      modifies this
      ensures fontSize == Agrandar(old(fontSize))
      ensures language == old(language) && colorBlindnessMode == old(colorBlindnessMode)
      ensures darkMode == old(darkMode) && speechEnabled == old(speechEnabled) && isSpeaking == old(isSpeaking)
    {
      var currentIndex := IndiceDe(fontSize);
      if currentIndex < |Tamanos| - 1 {
        fontSize := Tamanos[currentIndex + 1];
      }
    }

    method DecreaseFontSize()
      modifies this
      ensures fontSize == Achicar(old(fontSize))
      ensures language == old(language) && colorBlindnessMode == old(colorBlindnessMode)
      ensures darkMode == old(darkMode) && speechEnabled == old(speechEnabled) && isSpeaking == old(isSpeaking)
    {
      var currentIndex := IndiceDe(fontSize);
      if currentIndex > 0 {
        fontSize := Tamanos[currentIndex - 1];
      }
    }

    method ResetFontSize()
      modifies this
      ensures fontSize == "normal"
      ensures language == old(language) && colorBlindnessMode == old(colorBlindnessMode)
      ensures darkMode == old(darkMode) && speechEnabled == old(speechEnabled) && isSpeaking == old(isSpeaking)
    {
      fontSize := "normal";
    }

    method SetColorBlindnessMode(mode: ColorBlindnessType)
      modifies this
      ensures colorBlindnessMode == ColorBlindnessName(mode)
      ensures language == old(language) && fontSize == old(fontSize)
      ensures darkMode == old(darkMode) && speechEnabled == old(speechEnabled) && isSpeaking == old(isSpeaking)
    {
      colorBlindnessMode := ColorBlindnessName(mode);
    }

    method ToggleDarkMode()
      modifies this
      ensures darkMode == !old(darkMode)
      ensures language == old(language) && fontSize == old(fontSize) && colorBlindnessMode == old(colorBlindnessMode)
      ensures speechEnabled == old(speechEnabled) && isSpeaking == old(isSpeaking)
    {
      darkMode := !darkMode;
    }

    /** `stopSpeaking`; `sintesisDisponible` says whether the browser
        offers speech synthesis. */
    method StopSpeaking(sintesisDisponible: bool)
      modifies this
      ensures isSpeaking == (old(isSpeaking) && !sintesisDisponible)
      ensures language == old(language) && fontSize == old(fontSize) && colorBlindnessMode == old(colorBlindnessMode)
      ensures darkMode == old(darkMode) && speechEnabled == old(speechEnabled)
    {
      if sintesisDisponible {
        isSpeaking := false;
      }
    }

    /** `toggleSpeech`: switching read-aloud off also silences it. */
    method ToggleSpeech(sintesisDisponible: bool)
      modifies this
      ensures speechEnabled == !old(speechEnabled)
      ensures isSpeaking == (old(isSpeaking) && !(old(speechEnabled) && sintesisDisponible))
      ensures language == old(language) && fontSize == old(fontSize) && colorBlindnessMode == old(colorBlindnessMode)
      ensures darkMode == old(darkMode)
    {
      var estabaActivo := speechEnabled;
      speechEnabled := !speechEnabled;
      if estabaActivo {
        StopSpeaking(sintesisDisponible);
      }
    }

    /** `resetAllSettings`. */
    method ResetAllSettings(sintesisDisponible: bool)
      modifies this
      ensures language == "es" && fontSize == "normal" && colorBlindnessMode == "none"
      ensures !darkMode && !speechEnabled
      ensures isSpeaking == (old(isSpeaking) && !sintesisDisponible)
    {
      language := "es";
      fontSize := "normal";
      colorBlindnessMode := ColorBlindnessName(NoFilter);
      darkMode := false;
      speechEnabled := false;
      StopSpeaking(sintesisDisponible);
    }
  }
}
