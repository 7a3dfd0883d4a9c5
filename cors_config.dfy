/** The settings validator for the allowed CORS origins: a comma-separated
    string becomes a list of stripped origins, a list (or a string that
    looks like a JSON list) is passed on unchanged, anything else is
    refused. */
module CorsConfig {
  import opened Wrappers
  import opened Strings

  /** The raw setting: a string, a list of strings, or a value of any
      other type, kept by its text. */
  datatype CorsSetting = Text(s: string) | Items(items: seq<string>) | Other(repr: string)

  /** The origins the settings carry when nothing overrides them. */
  const DefaultCorsOrigins: seq<string> :=
    ["http://localhost:3000", "http://localhost:5173", "http://127.0.0.1:3000", "http://127.0.0.1:5173"]

  /** The pieces of a comma-separated string, each stripped of surrounding
      whitespace. */
  function StrippedPieces(s: string): (r: seq<string>)
    ensures |r| == |Split(s, ',')| == Count(s, ',') + 1
    ensures forall i :: 0 <= i < |r| ==> r[i] == Strip(Split(s, ',')[i])
  {
    SplitLength(s, ',');
    var pieces := Split(s, ',');
    seq(|pieces|, i requires 0 <= i < |pieces| => Strip(pieces[i]))
  }

  /** `Failure` carries the refused value, as the raised `ValueError` does. */
  function AssembleCorsOrigins(v: CorsSetting): (r: Result<CorsSetting, string>)
    ensures v.Text? && !StartsWith(v.s, "[") ==> r == Success(Items(StrippedPieces(v.s)))
    ensures v.Items? || (v.Text? && StartsWith(v.s, "[")) ==> r == Success(v)
    ensures r.Failure? <==> v.Other?
  {
    match v
    case Text(s) =>
      if !StartsWith(s, "[") then Success(Items(StrippedPieces(s))) else Success(v)
    case Items(_) => Success(v)
    case Other(repr) => Failure(repr)
  }

  /** Every origin of a split string is free of commas and of whitespace
      at either end. */
  lemma PiecesAreClean(s: string)
    requires !StartsWith(s, "[")
    ensures var r := AssembleCorsOrigins(Text(s));
            r.Success? && r.value.Items?
            && forall i :: 0 <= i < |r.value.items| ==> Origin(r.value.items[i])
  {
    var pieces := StrippedPieces(s);
    forall i | 0 <= i < |pieces| ensures Origin(pieces[i]) {
      var p := Split(s, ',')[i];
      var i0, j0 :| 0 <= i0 <= j0 <= |p| && pieces[i] == p[i0..j0] && AllSpace(p[..i0]) && AllSpace(p[j0..]);
      assert forall k :: 0 <= k < |pieces[i]| ==> pieces[i][k] == p[i0 + k];
    }
  }

  /** What a single origin of the list looks like once split out: no
      comma inside and no whitespace at either end. */
  predicate Origin(o: string) {
    ',' !in o && (o == [] || (!IsSpace(o[0]) && !IsSpace(o[|o| - 1])))
  }

  lemma StripOrigin(o: string)
    requires Origin(o)
    ensures Strip(o) == o
  {
  }

  /** Writing a list of origins as one comma-separated string and reading
      it back gives the same list, in the same order. */
  lemma OriginsRoundTrip(origins: seq<string>)
    requires |origins| >= 1 && forall i :: 0 <= i < |origins| ==> Origin(origins[i])
    requires !StartsWith(origins[0], "[")
    ensures AssembleCorsOrigins(Text(Join(origins, ","))) == Success(Items(origins))
  {
    var s := Join(origins, ",");
    JoinNotBracket(origins);
    SplitJoin(origins, ',');
    StripOrigins(s, origins);
  }

  lemma StripOrigins(s: string, origins: seq<string>)
    requires Split(s, ',') == origins
    requires forall i :: 0 <= i < |origins| ==> Origin(origins[i])
    ensures StrippedPieces(s) == origins
  {
    var pieces := StrippedPieces(s);
    forall i | 0 <= i < |origins| ensures pieces[i] == origins[i] {
      StripOrigin(origins[i]);
    }
  }

  /** The joined text starts with `[` only when its first origin does. */
  lemma JoinNotBracket(origins: seq<string>)
    requires |origins| >= 1 && ',' !in origins[0]
    requires !StartsWith(origins[0], "[")
    ensures !StartsWith(Join(origins, ","), "[")
  {
    var s := Join(origins, ",");
    if |origins| > 1 {
      JoinCons(origins[0], origins[1..], ",");
      assert [origins[0]] + origins[1..] == origins;
      assert s == origins[0] + "," + Join(origins[1..], ",");
    }
    if origins[0] != [] {
      assert s[0] == origins[0][0];
    }
  }

  /** Running the validator on its own answer changes nothing. */
  lemma AssembleIdempotent(v: CorsSetting)
    requires AssembleCorsOrigins(v).Success?
    ensures AssembleCorsOrigins(AssembleCorsOrigins(v).value) == AssembleCorsOrigins(v)
  {
  }
}
