/**
 * `CodeMaster`: the code tables of JV-Data (racecourse, grade, race type,
 * track, weather, going, sex, breed, coat colour, stable region, abnormal
 * result) and the lookup that names a code.
 */
module CodeMaster {
  import opened PyText

  const JyoCode: map<string, string> := map[
    "01" := "札幌", "02" := "函館", "03" := "福島", "04" := "新潟", "05" := "東京",
    "06" := "中山", "07" := "中京", "08" := "京都", "09" := "阪神", "10" := "小倉"]

  const GradeCode: map<string, string> := map["A" := "G1", "B" := "G2", "C" := "G3", " " := "平場"]

  const SyubetsuCode: map<string, string> := map[
    "11" := "2歳", "12" := "3歳", "13" := "3歳以上", "14" := "4歳以上", "18" := "障害"]

  const TrackCode: map<string, string> := map[
    "00" := "芝", "10" := "芝外", "11" := "芝内-外", "12" := "芝外-内", "17" := "芝内2周",
    "18" := "芝外2周", "19" := "ダート", "20" := "ダート", "21" := "ダ内-外", "22" := "ダ外-内",
    "23" := "ダ内2周", "24" := "ダ外2周", "29" := "ダート", "51" := "障芝", "52" := "障芝ダ",
    "53" := "障ダ芝", "54" := "障害ダ", "55" := "障直線", "56" := "障芝外", "57" := "障芝内-外",
    "58" := "障芝外-内", "59" := "障芝内2周"]

  const TenkoCode: map<string, string> := map[
    "1" := "晴", "2" := "曇", "3" := "雨", "4" := "小雨", "5" := "雪", "6" := "小雪"]

  const ShibaBabaCode: map<string, string> := map["1" := "良", "2" := "稍重", "3" := "重", "4" := "不良"]

  const DirtBabaCode: map<string, string> := map["1" := "良", "2" := "稍重", "3" := "重", "4" := "不良"]

  const SeibetsuCode: map<string, string> := map["1" := "牡", "2" := "牝", "3" := "セ"]

  const HinsyuCode: map<string, string> := map["1" := "サラ", "2" := "アラ"]

  const KeiroCode: map<string, string> := map[
    "01" := "栗毛", "02" := "栃栗毛", "03" := "鹿毛", "04" := "黒鹿毛", "05" := "青鹿毛", "06" := "青毛",
    "07" := "芦毛", "08" := "栗粕毛", "09" := "鹿粕毛", "10" := "青粕毛", "11" := "白毛"]

  const TozaiCode: map<string, string> := map["1" := "美浦", "2" := "栗東", "3" := "地方", "4" := "海外"]

  const IjyoCode: map<string, string> := map[
    "0" := "異常なし", "1" := "取消", "2" := "発走除外", "3" := "競走除外", "4" := "競走中止",
    "5" := "失格", "6" := "落馬再騎乗", "7" := "降着"]

  /** The class attributes named `<TYPE>_CODE`, by name. */
  const Tables: map<string, map<string, string>> := map[
    "SYUBETSU_CODE" := SyubetsuCode, "TRACK_CODE" := TrackCode, "TENKO_CODE" := TenkoCode,
    "SHIBA_BABA_CODE" := ShibaBabaCode, "DIRT_BABA_CODE" := DirtBabaCode, "SEIBETSU_CODE" := SeibetsuCode,
    "HINSYU_CODE" := HinsyuCode, "KEIRO_CODE" := KeiroCode, "TOZAI_CODE" := TozaiCode, "IJYO_CODE" := IjyoCode,
    "JYO_CODE" := JyoCode, "GRADE_CODE" := GradeCode]

  /** Python's `str.upper` on one character, as far as a table name can
      result: ASCII letters, the dotless `ı` and the long `ſ`, whose upper
      cases are `I` and `S`. Every other character is kept. */
  function UpperChar(c: char): char {
    if 'a' <= c <= 'z' then (c as int - 32) as char
    else if c == 'ı' then 'I'
    else if c == 'ſ' then 'S'
    else c
  }

  function Upper(s: string): (r: string)
    ensures |r| == |s|
  {
    seq(|s|, i requires 0 <= i < |s| => UpperChar(s[i]))
  }

  /** The table `get_name` consults for a code type. */
  function TableName(codeType: string): string {
    Upper(codeType) + "_CODE"
  }

  /** `CodeMaster.get_name(code_type, code)`: the name of `code` in the table
      of `code_type`, matched case-insensitively; the code itself when the
      table has no such code or there is no such table. */
  function GetName(codeType: string, code: string): (r: string)
    ensures TableName(codeType) !in Tables ==> r == code
    ensures TableName(codeType) in Tables && code !in Tables[TableName(codeType)] ==> r == code
    ensures TableName(codeType) in Tables && code in Tables[TableName(codeType)] ==>
              r == Tables[TableName(codeType)][code]
  {
    var name := TableName(codeType);
    if name in Tables then
      var table := Tables[name];
      if code in table then table[code] else code
    else code
  }

  /** The code type is matched without regard to case. */
  lemma GetNameIgnoresCase(codeType: string, code: string)
    ensures GetName(codeType, code) == GetName(Upper(codeType), code)
  {
    assert Upper(Upper(codeType)) == Upper(codeType);
  }

  /** A known racecourse code is named by the `JYO` table. */
  lemma GetNameJyo(code: string)
    requires code in JyoCode
    ensures GetName("JYO", code) == JyoCode[code]
  {
    assert Upper("JYO") == "JYO";
    assert TableName("JYO") == "JYO_CODE";
  }

  /** The code type `GRADE` names codes by the grade table, and leaves
      any other code as it is. */
  lemma GetNameGrade(code: string)
    ensures GetName("GRADE", code) == if code in GradeCode then GradeCode[code] else code
  {
    assert Upper("GRADE") == "GRADE";
    assert TableName("GRADE") == "GRADE_CODE";
  }

  /** Codes reach the lookup stripped of whitespace, so the blank grade
      code `" "` of the grade table is never matched: a blank grade field
      reads as `""` and is named `""`, not `平場`. */
  lemma BlankGradeUnreachable(code: string)
    requires IsStripped(code)
    ensures code != " "
    ensures code == "" ==> GetName("GRADE", code) == ""
    ensures GetName("GRADE", code) == "平場" ==> code == "平場"
  {
    GetNameGrade(code);
    assert code != " ";
  }

  /** `str.upper` turns the dotless `ı` into `I`, so `ıjyo` names the
      abnormal-result table. */
  lemma DotlessIMatchesIjyo(code: string)
    requires code in IjyoCode
    ensures GetName("ıjyo", code) == IjyoCode[code]
  {
    assert Upper("ıjyo") == "IJYO";
    assert TableName("ıjyo") == "IJYO_CODE";
  }
}
