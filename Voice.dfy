/** The two pure helpers of the speech service: the mapping of a language code to the recogniser's
    language names, and the size check on uploaded audio. The recognition and conversion calls are
    outside. */
module Voice {
  import opened Common

  /** The four language names the recogniser accepts. */
  const Languages: seq<string> := ["Kor", "Eng", "Jpn", "Chn"]

  /** The code table, looked up after lowering. */
  function LanguageTable(code: string): (r: Option<string>)
    ensures r.Some? ==> r.value in Languages
  {
    if code == "ko" || code == "ko-kr" || code == "kor" then Some("Kor")
    else if code == "en" || code == "en-us" || code == "eng" then Some("Eng")
    else if code == "ja" || code == "ja-jp" || code == "jpn" then Some("Jpn")
    else if code == "zh" || code == "zh-cn" || code == "chn" then Some("Chn")
    else None
  }

  /** `_map_language`: `None` or the empty code count as "", which is not in the table. */
  function MapLanguage(language: Option<string>): (r: string)
    ensures r in Languages
    ensures language.None? ==> r == "Kor"
    ensures language.Some? && LanguageTable(Lower(language.value)).Some? ==> r == LanguageTable(Lower(language.value)).value
    ensures language.Some? && LanguageTable(Lower(language.value)).None? ==> r == "Kor"
  {
    var lang := if language.Some? then Lower(language.value) else "";
    match LanguageTable(lang)
      case Some(l) => l
      case None => "Kor"
  }

  /** Codes are compared without regard to ASCII case. */
  lemma MapLanguageIgnoresCase(code: string)
    ensures MapLanguage(Some(Lower(code))) == MapLanguage(Some(code))
  {
    LowerIdempotent(code);
  }

  /** The Korean codes of the table, in any case, and the default. */
  lemma MapLanguageKorean()
    ensures MapLanguage(Some("ko")) == "Kor" && MapLanguage(Some("ko-KR")) == "Kor" && MapLanguage(Some("KOR")) == "Kor"
    ensures MapLanguage(Some("")) == "Kor" && MapLanguage(Some("fr")) == "Kor"
  {
    assert Lower("ko") == "ko" && Lower("ko-KR") == "ko-kr" && Lower("KOR") == "kor";
    assert Lower("") == "" && Lower("fr") == "fr";
  }

  lemma MapLanguageEnglish()
    ensures MapLanguage(Some("en")) == "Eng" && MapLanguage(Some("en-US")) == "Eng" && MapLanguage(Some("ENG")) == "Eng"
  {
    assert Lower("en") == "en" && Lower("en-US") == "en-us" && Lower("ENG") == "eng";
  }

  lemma MapLanguageJapanese()
    ensures MapLanguage(Some("ja")) == "Jpn" && MapLanguage(Some("ja-JP")) == "Jpn" && MapLanguage(Some("JPN")) == "Jpn"
  {
    assert Lower("ja") == "ja" && Lower("ja-JP") == "ja-jp" && Lower("JPN") == "jpn";
  }

  lemma MapLanguageChinese()
    ensures MapLanguage(Some("zh")) == "Chn" && MapLanguage(Some("zh-CN")) == "Chn" && MapLanguage(Some("CHN")) == "Chn"
  {
    assert Lower("zh") == "zh" && Lower("zh-CN") == "zh-cn" && Lower("CHN") == "chn";
  }

  /** Mapping an output again gives it back. */
  lemma MapLanguageIdempotent(language: Option<string>)
    ensures MapLanguage(Some(MapLanguage(language))) == MapLanguage(language)
  {
    var r := MapLanguage(language);
    assert Lower("Kor") == "kor" && Lower("Eng") == "eng" && Lower("Jpn") == "jpn" && Lower("Chn") == "chn";
  }

  /** The largest accepted upload: ten mebibytes. */
  const MaxAudioBytes: nat := 10 * 1024 * 1024

  datatype AudioCheck = Valid | Empty | TooLarge

  /** `validate_audio_format`: the empty check comes first, then the size limit, which is inclusive. */
  function ValidateAudio(audioLength: nat): (c: AudioCheck)
    ensures c == Empty <==> audioLength == 0
    ensures c == TooLarge <==> audioLength > 10485760
    ensures c == Valid <==> 1 <= audioLength <= 10485760
  {
    if audioLength == 0 then Empty
    else if audioLength > MaxAudioBytes then TooLarge
    else Valid
  }

  /** The message each rejection carries. */
  function AudioError(c: AudioCheck): (msg: Option<string>)
    ensures msg.None? <==> c == Valid
  {
    match c
      case Valid => None
      case Empty => Some("빈 오디오 데이터")
      case TooLarge => Some("오디오 파일이 너무 큽니다 (최대 10MB)")
  }
}
