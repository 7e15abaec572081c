/** Sensor status classification and the rule-based recommendation text
    (src/utils/mockData.js). A reading is the result of `parseFloat`, taken as
    given: a real, or `None` for NaN. */
module Sensors {
  import opened Js

  const Ideal := "ideal"
  const Critical := "critical"
  const Unknown := "unknown"

  /** `getStatusSensor(sensor, value)` */
  function GetStatusSensor(sensor: string, value: Option<real>): (status: string)
    // temperature: [24,28] ideal, [22,24) cold, (28,30] hot, anything else critical
    ensures sensor == "suhu" && value.Some? ==>
      && (status == Ideal <==> 24.0 <= value.value <= 28.0)
      && (status == "dingin" <==> 22.0 <= value.value < 24.0)
      && (status == "panas" <==> 28.0 < value.value <= 30.0)
      && (status == Critical <==> value.value < 22.0 || 30.0 < value.value)
    // pH: [6.5,7.5] ideal (7.5 itself is ideal), (7.5,8] alkaline, below 6.5 acidic, above 8 critical
    ensures sensor == "ph" && value.Some? ==>
      && (status == Ideal <==> 6.5 <= value.value <= 7.5)
      && (status == "basa" <==> 7.5 < value.value <= 8.0)
      && (status == "asam" <==> value.value < 6.5)
      && (status == Critical <==> 8.0 < value.value)
    // TDS: [150,300] ideal, (300,500] high, below 150 low, above 500 critical
    ensures sensor == "tds" && value.Some? ==>
      && (status == Ideal <==> 150.0 <= value.value <= 300.0)
      && (status == "tinggi" <==> 300.0 < value.value <= 500.0)
      && (status == "rendah" <==> value.value < 150.0)
      && (status == Critical <==> 500.0 < value.value)
    // NaN fails every comparison
    ensures sensor in {"suhu", "ph", "tds"} && value.None? ==> status == Critical
    ensures sensor !in {"suhu", "ph", "tds"} ==> status == Unknown
  {
    if sensor == "suhu" then
      match value
      case None => Critical
      case Some(v) =>
        if 24.0 <= v <= 28.0 then Ideal
        else if 22.0 <= v < 24.0 then "dingin"
        else if 28.0 < v <= 30.0 then "panas"
        else Critical
    else if sensor == "ph" then
      match value
      case None => Critical
      case Some(v) =>
        if 6.5 <= v <= 7.5 then Ideal
        else if 7.5 <= v <= 8.0 then "basa"
        else if v < 6.5 then "asam"
        else Critical
    else if sensor == "tds" then
      match value
      case None => Critical
      case Some(v) =>
        if 150.0 <= v <= 300.0 then Ideal
        else if 300.0 < v <= 500.0 then "tinggi"
        else if v < 150.0 then "rendah"
        else Critical
    else Unknown
  }

  // ----- recommendation text -----

  const Optimal := "Kondisi aquascape optimal, pertahankan kondisi saat ini. \U{2713}"

  // The nine advice sentences, one per non-ideal status.
  const SuhuDingin := "Suhu terlalu dingin, nyalakan heater."
  const SuhuPanas := "Suhu terlalu panas, kurangi cahaya atau tambah pendingin."
  const SuhuKritis := "\U{26A0}\U{FE0F} Suhu kritis, ambil tindakan segera!"
  const PhAsam := "pH terlalu asam, tambahkan buffer."
  const PhBasa := "pH terlalu basa, kurangi makanan."
  const PhKritis := "\U{26A0}\U{FE0F} pH kritis, lakukan penggantian air sebagian."
  const TdsRendah := "TDS rendah, tambahkan nutrisi."
  const TdsTinggi := "TDS tinggi, lakukan water change."
  const TdsKritis := "\U{26A0}\U{FE0F} TDS kritis, segera lakukan water change!"

  /** The message a temperature status contributes, if any. */
  function SuhuMessage(status: string): Option<string> {
    if status == "dingin" then Some(SuhuDingin)
    else if status == "panas" then Some(SuhuPanas)
    else if status == Critical then Some(SuhuKritis)
    else None
  }

  function PhMessage(status: string): Option<string> {
    if status == "asam" then Some(PhAsam)
    else if status == "basa" then Some(PhBasa)
    else if status == Critical then Some(PhKritis)
    else None
  }

  function TdsMessage(status: string): Option<string> {
    if status == "rendah" then Some(TdsRendah)
    else if status == "tinggi" then Some(TdsTinggi)
    else if status == Critical then Some(TdsKritis)
    else None
  }

  function AsList(m: Option<string>): seq<string> {
    if m.Some? then [m.value] else []
  }

  /** The messages in the order they are pushed: temperature, pH, TDS. */
  function Messages(suhuStatus: string, phStatus: string, tdsStatus: string): seq<string> {
    AsList(SuhuMessage(suhuStatus)) + AsList(PhMessage(phStatus)) + AsList(TdsMessage(tdsStatus))
  }

  /** The text `generateRecommendation` returns for a list of messages. */
  function RecommendationText(messages: seq<string>): string {
    if messages == [] then Optimal else Join(messages, " ")
  }

  /** `generateRecommendation(suhuStatus, phStatus, tdsStatus)`: one `push`
      per matching status, then the optimal sentence or the messages joined
      by single spaces. */
  method GenerateRecommendation(suhuStatus: string, phStatus: string, tdsStatus: string) returns (text: string)
    ensures text == RecommendationText(Messages(suhuStatus, phStatus, tdsStatus))
  {
    var recommendations: seq<string> := [];
    if suhuStatus == "dingin" { recommendations := recommendations + [SuhuDingin]; }
    if suhuStatus == "panas" { recommendations := recommendations + [SuhuPanas]; }
    if suhuStatus == Critical { recommendations := recommendations + [SuhuKritis]; }
    assert recommendations == AsList(SuhuMessage(suhuStatus));

    if phStatus == "asam" { recommendations := recommendations + [PhAsam]; }
    if phStatus == "basa" { recommendations := recommendations + [PhBasa]; }
    if phStatus == Critical { recommendations := recommendations + [PhKritis]; }
    assert recommendations == AsList(SuhuMessage(suhuStatus)) + AsList(PhMessage(phStatus));

    if tdsStatus == "rendah" { recommendations := recommendations + [TdsRendah]; }
    if tdsStatus == "tinggi" { recommendations := recommendations + [TdsTinggi]; }
    if tdsStatus == Critical { recommendations := recommendations + [TdsKritis]; }
    assert recommendations == Messages(suhuStatus, phStatus, tdsStatus);

    if |recommendations| == 0 {
      return Optimal;
    }
    text := Join(recommendations, " ");
  }

  /** Each sensor contributes at most one message, and `ideal` (or any status
      outside the tables) contributes none. */
  lemma MessagesPerSensor(suhuStatus: string, phStatus: string, tdsStatus: string)
    ensures |Messages(suhuStatus, phStatus, tdsStatus)| <= 3
    ensures SuhuMessage(Ideal) == None && PhMessage(Ideal) == None && TdsMessage(Ideal) == None
    ensures suhuStatus !in {"dingin", "panas", Critical} ==> SuhuMessage(suhuStatus) == None
    ensures phStatus !in {"asam", "basa", Critical} ==> PhMessage(phStatus) == None
    ensures tdsStatus !in {"rendah", "tinggi", Critical} ==> TdsMessage(tdsStatus) == None
  {
  }

  function LastChar(s: string): char
    requires s != []
  {
    s[|s| - 1]
  }

  /** A joined text ends where its last part ends. */
  lemma {:induction false} JoinEndsWithLastPart(parts: seq<string>, sep: string)
    requires parts != [] && parts[|parts| - 1] != []
    ensures Join(parts, sep) != [] && LastChar(Join(parts, sep)) == LastChar(parts[|parts| - 1])
    decreases |parts|
  {
    if |parts| > 1 {
      JoinEndsWithLastPart(parts[1..], sep);
      assert parts[1..][|parts[1..]| - 1] == parts[|parts| - 1];
    }
  }

  predicate EndsInPunctuation(m: string) {
    m != [] && (LastChar(m) == '.' || LastChar(m) == '!')
  }

  lemma SuhuMessageEnds(status: string)
    ensures SuhuMessage(status).Some? ==> EndsInPunctuation(SuhuMessage(status).value)
  {
  }

  lemma PhMessageEnds(status: string)
    ensures PhMessage(status).Some? ==> EndsInPunctuation(PhMessage(status).value)
  {
  }

  lemma TdsMessageEnds(status: string)
    ensures TdsMessage(status).Some? ==> EndsInPunctuation(TdsMessage(status).value)
  {
  }

  /** Every message ends in '.' or '!'. */
  lemma MessagesEndInPunctuation(suhuStatus: string, phStatus: string, tdsStatus: string)
    ensures forall m | m in Messages(suhuStatus, phStatus, tdsStatus) :: EndsInPunctuation(m)
  {
    SuhuMessageEnds(suhuStatus);
    PhMessageEnds(phStatus);
    TdsMessageEnds(tdsStatus);
    var a, b, c := AsList(SuhuMessage(suhuStatus)), AsList(PhMessage(phStatus)), AsList(TdsMessage(tdsStatus));
    assert Messages(suhuStatus, phStatus, tdsStatus) == a + b + c;
  }

  /** The optimal sentence is returned exactly when no status produced a
      message: a joined text of messages can never be mistaken for it. */
  lemma OptimalExactlyWhenNoMessage(suhuStatus: string, phStatus: string, tdsStatus: string)
    ensures var ms := Messages(suhuStatus, phStatus, tdsStatus);
      RecommendationText(ms) == Optimal <==> ms == []
  {
    var ms := Messages(suhuStatus, phStatus, tdsStatus);
    if ms != [] {
      MessagesEndInPunctuation(suhuStatus, phStatus, tdsStatus);
      assert ms[|ms| - 1] in ms;
      JoinEndsWithLastPart(ms, " ");
      assert LastChar(Optimal) == '\U{2713}';
    }
  }

  /** Classifier and recommender agree: every status the classifier produces
      for a reading outside the ideal band has a message, and an ideal reading
      has none. */
  lemma EveryNonIdealStatusHasAMessage(value: Option<real>)
    ensures (GetStatusSensor("suhu", value) == Ideal) <==> SuhuMessage(GetStatusSensor("suhu", value)).None?
    ensures (GetStatusSensor("ph", value) == Ideal) <==> PhMessage(GetStatusSensor("ph", value)).None?
    ensures (GetStatusSensor("tds", value) == Ideal) <==> TdsMessage(GetStatusSensor("tds", value)).None?
  {
  }

  /** Three ideal readings give the optimal sentence. */
  lemma AllIdealIsOptimal(suhu: real, ph: real, tds: real)
    requires 24.0 <= suhu <= 28.0 && 6.5 <= ph <= 7.5 && 150.0 <= tds <= 300.0
    ensures RecommendationText(Messages(
      GetStatusSensor("suhu", Some(suhu)), GetStatusSensor("ph", Some(ph)), GetStatusSensor("tds", Some(tds)))) == Optimal
  {
  }
}
