/** The fixed class taxonomy and the colour palettes.

    The editor keeps the taxonomy as an ordered list of {id, label, color}
    (src/components/ImagePreview.tsx:16-73); the prediction route keeps the
    same labels as a dictionary (src/app/api/predict-insulator/route.ts:39-60)
    and a dictionary of four-colour palettes per class plus a `default`
    palette (route.ts:65-191). */
module Taxonomy {
  import opened Types

  /** One taxonomy entry; `name` is the source's `label` (a reserved word here). */
  datatype ClassInfo = ClassInfo(id: string, name: string, color: string)

  /** Label used by the route for a class key it does not know. */
  const UnknownLabel: string := "Unknown"

  /** Palette key used for a class key without a palette of its own. */
  const DefaultKey: string := "default"

  const Classes: seq<ClassInfo> := [
    ClassInfo("cach_dien_polyme", "Cách điện polyme", "#00FF66"),
    ClassInfo("cach_dien_thuy_tinh", "Cách điện thủy tinh", "#00CCFF"),
    ClassInfo("chong_set_van", "Chống sét van", "#3366FF"),
    ClassInfo("day_dan", "Dây dẫn", "#6600FF"),
    ClassInfo("ta_chong_rung", "Tạ chống rung", "#0099FF"),
    ClassInfo("tt_ban_phong_dien", "Cách điện thuỷ tinh bẩn phóng điện", "#9900CC"),
    ClassInfo("tt_vo_mat_bat", "Cách điện thuỷ tinh vỡ mất bát", "#FF6600"),
    ClassInfo("van_ban", "Chống sét van bị bẩn", "#FF9900"),
    ClassInfo("day_ban_phong_dien", "Dây dẫn bị bẩn, phóng điện", "#FF6699"),
    ClassInfo("van_phong_dien_bien_dang", "Chống sét van bị phóng điện, biến dạng", "#CC0066"),
    ClassInfo("day_tua_dut_soi", "Dây dẫn bị tưa, đứt sợi", "#FF0066"),
    ClassInfo("day_vat_la_bam", "Dây dẫn bị vật lạ bám vào", "#99FF00"),
    ClassInfo("ta_chong_rung_ri_set", "Tạ chống rung bị rỉ sét", "#CC6600"),
    ClassInfo("long_bulong", "Lỏng bulong", "#0099CC"),
    ClassInfo("mat_bulong", "Mất bulong", "#00FF99"),
    ClassInfo("mat_ta", "Mất tạ", "#9933FF"),
    ClassInfo("polyme_ban_phong_dien", "Cách điện polymer bị bẩn phóng điện", "#FF3366"),
    ClassInfo("polyme_cong_venh", "Cách điện polymer bị cong vênh", "#66FF00"),
    ClassInfo("polyme_rach", "Cách điện polymer bị rách", "#FFCC00"),
    ClassInfo("van_ran_rach_tan", "Chống sét van bị rạn, rách tán", "#00FFCC")
  ]

  const Labels: map<string, string> := map[
    "cach_dien_polyme" := "Cách điện polyme",
    "cach_dien_thuy_tinh" := "Cách điện thủy tinh",
    "chong_set_van" := "Chống sét van",
    "day_dan" := "Dây dẫn",
    "ta_chong_rung" := "Tạ chống rung",
    "tt_ban_phong_dien" := "Cách điện thuỷ tinh bẩn phóng điện",
    "tt_vo_mat_bat" := "Cách điện thuỷ tinh vỡ mất bát",
    "van_ban" := "Chống sét van bị bẩn",
    "day_ban_phong_dien" := "Dây dẫn bị bẩn, phóng điện",
    "van_phong_dien_bien_dang" := "Chống sét van bị phóng điện, biến dạng",
    "day_tua_dut_soi" := "Dây dẫn bị tưa, đứt sợi",
    "day_vat_la_bam" := "Dây dẫn bị vật lạ bám vào",
    "ta_chong_rung_ri_set" := "Tạ chống rung bị rỉ sét",
    "long_bulong" := "Lỏng bulong",
    "mat_bulong" := "Mất bulong",
    "mat_ta" := "Mất tạ",
    "polyme_ban_phong_dien" := "Cách điện polymer bị bẩn phóng điện",
    "polyme_cong_venh" := "Cách điện polymer bị cong vênh",
    "polyme_rach" := "Cách điện polymer bị rách",
    "van_ran_rach_tan" := "Chống sét van bị rạn, rách tán"
  ]

  /** The palette dictionary; each palette is a constant of its own below,
      in the dictionary's order. */
  const Palettes: map<string, seq<Color>> := map[
    "cach_dien_polyme" := CachDienPolymePalette,
    "cach_dien_thuy_tinh" := CachDienThuyTinhPalette,
    "chong_set_van" := ChongSetVanPalette,
    "day_dan" := DayDanPalette,
    "ta_chong_rung" := TaChongRungPalette,
    "tt_ban_phong_dien" := TtBanPhongDienPalette,
    "tt_vo_mat_bat" := TtVoMatBatPalette,
    "van_ban" := VanBanPalette,
    "day_ban_phong_dien" := DayBanPhongDienPalette,
    "van_phong_dien_bien_dang" := VanPhongDienBienDangPalette,
    "day_tua_dut_soi" := DayTuaDutSoiPalette,
    "day_vat_la_bam" := DayVatLaBamPalette,
    "ta_chong_rung_ri_set" := TaChongRungRiSetPalette,
    "long_bulong" := LongBulongPalette,
    "mat_bulong" := MatBulongPalette,
    "mat_ta" := MatTaPalette,
    "polyme_cong_venh" := PolymeCongVenhPalette,
    "polyme_ban_phong_dien" := PolymeBanPhongDienPalette,
    "polyme_rach" := PolymeRachPalette,
    "van_ran_rach_tan" := VanRanRachTanPalette,
    "default" := DefaultPalette
  ]

  const CachDienPolymePalette: seq<Color> := [
    Color("#00FF66", "rgba(0, 255, 102, 0.2)"),
    Color("#00CC52", "rgba(0, 204, 82, 0.2)"),
    Color("#33FF80", "rgba(51, 255, 128, 0.2)"),
    Color("#009940", "rgba(0, 153, 64, 0.2)")]

  const CachDienThuyTinhPalette: seq<Color> := [
    Color("#00CCFF", "rgba(0, 204, 255, 0.2)"),
    Color("#00A3CC", "rgba(0, 163, 204, 0.2)"),
    Color("#33D6FF", "rgba(51, 214, 255, 0.2)"),
    Color("#008099", "rgba(0, 128, 153, 0.2)")]

  const ChongSetVanPalette: seq<Color> := [
    Color("#3366FF", "rgba(51, 102, 255, 0.2)"),
    Color("#2952CC", "rgba(41, 82, 204, 0.2)"),
    Color("#5C85FF", "rgba(92, 133, 255, 0.2)"),
    Color("#1F3D99", "rgba(31, 61, 153, 0.2)")]

  const DayDanPalette: seq<Color> := [
    Color("#6600FF", "rgba(102, 0, 255, 0.2)"),
    Color("#5200CC", "rgba(82, 0, 204, 0.2)"),
    Color("#8033FF", "rgba(128, 51, 255, 0.2)"),
    Color("#400099", "rgba(64, 0, 153, 0.2)")]

  const TaChongRungPalette: seq<Color> := [
    Color("#0099FF", "rgba(0, 153, 255, 0.2)"),
    Color("#007ACC", "rgba(0, 122, 204, 0.2)"),
    Color("#33ADFF", "rgba(51, 173, 255, 0.2)"),
    Color("#005C99", "rgba(0, 92, 153, 0.2)")]

  const TtBanPhongDienPalette: seq<Color> := [
    Color("#9900CC", "rgba(153, 0, 204, 0.2)"),
    Color("#7700A3", "rgba(119, 0, 163, 0.2)"),
    Color("#B833E6", "rgba(184, 51, 230, 0.2)"),
    Color("#660099", "rgba(102, 0, 153, 0.2)")]

  const TtVoMatBatPalette: seq<Color> := [
    Color("#FF6600", "rgba(255, 102, 0, 0.2)"),
    Color("#CC5200", "rgba(204, 82, 0, 0.2)"),
    Color("#FF8033", "rgba(255, 128, 51, 0.2)"),
    Color("#994000", "rgba(153, 64, 0, 0.2)")]

  const VanBanPalette: seq<Color> := [
    Color("#FF9900", "rgba(255, 153, 0, 0.2)"),
    Color("#CC7A00", "rgba(204, 122, 0, 0.2)"),
    Color("#FFAD33", "rgba(255, 173, 51, 0.2)"),
    Color("#995C00", "rgba(153, 92, 0, 0.2)")]

  const DayBanPhongDienPalette: seq<Color> := [
    Color("#FF6699", "rgba(255, 102, 153, 0.2)"),
    Color("#CC527A", "rgba(204, 82, 122, 0.2)"),
    Color("#FF85AD", "rgba(255, 133, 173, 0.2)"),
    Color("#993D5C", "rgba(153, 61, 92, 0.2)")]

  const VanPhongDienBienDangPalette: seq<Color> := [
    Color("#CC0066", "rgba(204, 0, 102, 0.2)"),
    Color("#A30052", "rgba(163, 0, 82, 0.2)"),
    Color("#E63385", "rgba(230, 51, 133, 0.2)"),
    Color("#800040", "rgba(128, 0, 64, 0.2)")]

  const DayTuaDutSoiPalette: seq<Color> := [
    Color("#FF0066", "rgba(255, 0, 102, 0.2)"),
    Color("#CC0052", "rgba(204, 0, 82, 0.2)"),
    Color("#FF3385", "rgba(255, 51, 133, 0.2)"),
    Color("#990040", "rgba(153, 0, 64, 0.2)")]

  const DayVatLaBamPalette: seq<Color> := [
    Color("#99FF00", "rgba(153, 255, 0, 0.2)"),
    Color("#7ACC00", "rgba(122, 204, 0, 0.2)"),
    Color("#ADFF33", "rgba(173, 255, 51, 0.2)"),
    Color("#5C9900", "rgba(92, 153, 0, 0.2)")]

  const TaChongRungRiSetPalette: seq<Color> := [
    Color("#CC6600", "rgba(204, 102, 0, 0.2)"),
    Color("#A35200", "rgba(163, 82, 0, 0.2)"),
    Color("#E68033", "rgba(230, 128, 51, 0.2)"),
    Color("#804000", "rgba(128, 64, 0, 0.2)")]

  const LongBulongPalette: seq<Color> := [
    Color("#0099CC", "rgba(0, 153, 204, 0.2)"),
    Color("#007A99", "rgba(0, 122, 153, 0.2)"),
    Color("#33ADD6", "rgba(51, 173, 214, 0.2)"),
    Color("#005C73", "rgba(0, 92, 115, 0.2)")]

  const MatBulongPalette: seq<Color> := [
    Color("#00FF99", "rgba(0, 255, 153, 0.2)"),
    Color("#00CC7A", "rgba(0, 204, 122, 0.2)"),
    Color("#33FFAD", "rgba(51, 255, 173, 0.2)"),
    Color("#00995C", "rgba(0, 153, 92, 0.2)")]

  const MatTaPalette: seq<Color> := [
    Color("#9933FF", "rgba(153, 51, 255, 0.2)"),
    Color("#7A29CC", "rgba(122, 41, 204, 0.2)"),
    Color("#AD5CFF", "rgba(173, 92, 255, 0.2)"),
    Color("#5C1F99", "rgba(92, 31, 153, 0.2)")]

  const PolymeCongVenhPalette: seq<Color> := [
    Color("#66FF00", "rgba(102, 255, 0, 0.2)"),
    Color("#52CC00", "rgba(82, 204, 0, 0.2)"),
    Color("#80FF33", "rgba(128, 255, 51, 0.2)"),
    Color("#409900", "rgba(64, 153, 0, 0.2)")]

  const PolymeBanPhongDienPalette: seq<Color> := [
    Color("#FF3366", "rgba(255, 51, 102, 0.2)"),
    Color("#CC2952", "rgba(204, 41, 82, 0.2)"),
    Color("#FF5C85", "rgba(255, 92, 133, 0.2)"),
    Color("#991F3D", "rgba(153, 31, 61, 0.2)")]

  const PolymeRachPalette: seq<Color> := [
    Color("#FFCC00", "rgba(255, 204, 0, 0.2)"),
    Color("#CCA300", "rgba(204, 163, 0, 0.2)"),
    Color("#FFD633", "rgba(255, 214, 51, 0.2)"),
    Color("#997A00", "rgba(153, 122, 0, 0.2)")]

  const VanRanRachTanPalette: seq<Color> := [
    Color("#00FFCC", "rgba(0, 255, 204, 0.2)"),
    Color("#00CCA3", "rgba(0, 204, 163, 0.2)"),
    Color("#33FFD6", "rgba(51, 255, 214, 0.2)"),
    Color("#00997A", "rgba(0, 153, 122, 0.2)")]

  const DefaultPalette: seq<Color> := [
    Color("#888888", "rgba(136, 136, 136, 0.2)"),
    Color("#666666", "rgba(102, 102, 102, 0.2)"),
    Color("#AAAAAA", "rgba(170, 170, 170, 0.2)"),
    Color("#555555", "rgba(85, 85, 85, 0.2)")]

  /** `CLASSES.find((c) => c.id === id)` in the editor. */
  function FindClass(id: string): (r: Option<ClassInfo>)
    ensures r.Some? ==> r.value in Classes && r.value.id == id
    ensures r.None? ==> forall i :: 0 <= i < |Classes| ==> Classes[i].id != id
  {
    match FindFirst(Classes, (c: ClassInfo) => c.id == id)
    case None => None
    case Some(k) => Some(Classes[k])
  }

  /** `CLASSES[classId] || "Unknown"` in the route. */
  function ClassLabel(classId: string): (r: string)
    ensures classId in Labels ==> r == Labels[classId]
    ensures classId !in Labels ==> r == UnknownLabel
  {
    LabelsAreNonEmpty();
    if classId in Labels && Labels[classId] != "" then Labels[classId] else UnknownLabel
  }

  /** `type in colors ? type : "default"` */
  function PaletteKey(classId: string): (k: string)
    ensures k in Palettes
    ensures k == classId || k == DefaultKey
    ensures k == DefaultKey <==> classId !in Labels
  {
    PalettesCoverLabels();
    if classId in Palettes then classId else DefaultKey
  }

  /** `colors[key][Math.floor(random * colors[key].length)]`, where `random`
      is the value drawn from Math.random. */
  function PickColor(classId: string, random: real): (c: Color)
    requires 0.0 <= random < 1.0
    ensures c in Palettes[PaletteKey(classId)]
    ensures classId in Labels ==> c in Palettes[classId]
    ensures classId !in Labels ==> c in Palettes[DefaultKey]
  {
    var key := PaletteKey(classId);
    PaletteHasFourColors(key);
    var palette := Palettes[key];
    var k := (random * (|palette| as real)).Floor;
    FloorInRange(random, |palette|);
    palette[k]
  }

  lemma PaletteHasFourColors(key: string)
    requires key in Palettes
    ensures |Palettes[key]| == 4
  {
    PalettesHaveFourColors();
  }

  lemma FloorInRange(random: real, n: nat)
    requires 0.0 <= random < 1.0 && n > 0
    ensures 0 <= (random * (n as real)).Floor < n
  {
    assert 0.0 <= random * (n as real) < n as real;
  }

  lemma LabelsAreNonEmpty()
    ensures forall k :: k in Labels ==> Labels[k] != ""
  {
  }

  /** Every class key has a palette of its own; the only other palette is
      `default`, which is not a class key. */
  lemma PalettesCoverLabels()
    ensures Palettes.Keys == Labels.Keys + {DefaultKey}
    ensures DefaultKey !in Labels
  {
    PaletteKeysAreLabels();
    LabelKeysHavePalettes();
    DefaultIsNotLabel();
  }

  lemma PaletteKeysAreLabels()
    ensures forall k :: k in Palettes ==> k in Labels || k == DefaultKey
  {
  }

  lemma LabelKeysHavePalettes()
    ensures forall k :: k in Labels ==> k in Palettes
  {
  }

  lemma DefaultIsNotLabel()
    ensures DefaultKey !in Labels
  {
  }

  lemma PalettesHaveFourColors()
    ensures forall k :: k in Palettes ==> |Palettes[k]| == 4
  {
  }

  /** The editor's class list and the route's label dictionary name the same
      classes with the same labels. */
  lemma LabelsAgree()
    ensures forall i :: 0 <= i < |Classes| ==> Classes[i].id in Labels && Labels[Classes[i].id] == Classes[i].name
  {
    forall i | 0 <= i < |Classes| ensures AgreesAt(i) {
      if i == 0 { AgreesAt0(); }
      else if i == 1 { AgreesAt1(); }
      else if i == 2 { AgreesAt2(); }
      else if i == 3 { AgreesAt3(); }
      else if i == 4 { AgreesAt4(); }
      else if i == 5 { AgreesAt5(); }
      else if i == 6 { AgreesAt6(); }
      else if i == 7 { AgreesAt7(); }
      else if i == 8 { AgreesAt8(); }
      else if i == 9 { AgreesAt9(); }
      else if i == 10 { AgreesAt10(); }
      else if i == 11 { AgreesAt11(); }
      else if i == 12 { AgreesAt12(); }
      else if i == 13 { AgreesAt13(); }
      else if i == 14 { AgreesAt14(); }
      else if i == 15 { AgreesAt15(); }
      else if i == 16 { AgreesAt16(); }
      else if i == 17 { AgreesAt17(); }
      else if i == 18 { AgreesAt18(); }
      else { AgreesAt19(); }
    }
  }

  /** Entry `i` of the list has the dictionary's label under its id. */
  predicate AgreesAt(i: nat)
    requires i < |Classes|
  {
    Classes[i].id in Labels && Labels[Classes[i].id] == Classes[i].name
  }

  // One entry at a time: each map lookup is checked on its own.
  lemma AgreesAt0() ensures AgreesAt(0) {}
  lemma AgreesAt1() ensures AgreesAt(1) {}
  lemma AgreesAt2() ensures AgreesAt(2) {}
  lemma AgreesAt3() ensures AgreesAt(3) {}
  lemma AgreesAt4() ensures AgreesAt(4) {}
  lemma AgreesAt5() ensures AgreesAt(5) {}
  lemma AgreesAt6() ensures AgreesAt(6) {}
  lemma AgreesAt7() ensures AgreesAt(7) {}
  lemma AgreesAt8() ensures AgreesAt(8) {}
  lemma AgreesAt9() ensures AgreesAt(9) {}
  lemma AgreesAt10() ensures AgreesAt(10) {}
  lemma AgreesAt11() ensures AgreesAt(11) {}
  lemma AgreesAt12() ensures AgreesAt(12) {}
  lemma AgreesAt13() ensures AgreesAt(13) {}
  lemma AgreesAt14() ensures AgreesAt(14) {}
  lemma AgreesAt15() ensures AgreesAt(15) {}
  lemma AgreesAt16() ensures AgreesAt(16) {}
  lemma AgreesAt17() ensures AgreesAt(17) {}
  lemma AgreesAt18() ensures AgreesAt(18) {}
  lemma AgreesAt19() ensures AgreesAt(19) {}

  /** A listed class is named by the route's label for its id. */
  lemma ClassNameIsLabel(c: ClassInfo)
    requires c in Classes
    ensures c.id in Labels && Labels[c.id] == c.name
  {
    LabelsAgree();
    var i :| 0 <= i < |Classes| && Classes[i] == c;
  }

  /** ... and the dictionary has no key the list lacks. */
  lemma LabelsHaveNoExtraKey()
    ensures forall k :: k in Labels ==> exists i :: 0 <= i < |Classes| && Classes[i].id == k
  {
    forall k | k in Labels
      ensures exists i :: 0 <= i < |Classes| && Classes[i].id == k
    {
      if k == Classes[0].id { assert Classes[0].id == k; }
      else if k == Classes[1].id { assert Classes[1].id == k; }
      else if k == Classes[2].id { assert Classes[2].id == k; }
      else if k == Classes[3].id { assert Classes[3].id == k; }
      else if k == Classes[4].id { assert Classes[4].id == k; }
      else if k == Classes[5].id { assert Classes[5].id == k; }
      else if k == Classes[6].id { assert Classes[6].id == k; }
      else if k == Classes[7].id { assert Classes[7].id == k; }
      else if k == Classes[8].id { assert Classes[8].id == k; }
      else if k == Classes[9].id { assert Classes[9].id == k; }
      else if k == Classes[10].id { assert Classes[10].id == k; }
      else if k == Classes[11].id { assert Classes[11].id == k; }
      else if k == Classes[12].id { assert Classes[12].id == k; }
      else if k == Classes[13].id { assert Classes[13].id == k; }
      else if k == Classes[14].id { assert Classes[14].id == k; }
      else if k == Classes[15].id { assert Classes[15].id == k; }
      else if k == Classes[16].id { assert Classes[16].id == k; }
      else if k == Classes[17].id { assert Classes[17].id == k; }
      else if k == Classes[18].id { assert Classes[18].id == k; }
      else if k == Classes[19].id { assert Classes[19].id == k; }
      else { assert false; }
    }
  }

}
