/** backend/app/core/config.py: the settings the core reads, and the CORS origin list. */
module Config {
  import opened Strings

  /** The settings the core reads; loading them from the environment is not modelled. */
  datatype Settings = Settings(
    modelName: string,
    tokenizerName: string,
    device: string,             // "auto", or a device name passed to torch.device
    maxSequenceLength: int,
    corsOrigins: string,
    rateLimitEnabled: bool,
    rateLimitRequests: int,
    rateLimitWindow: int)

  /** The defaults written in the `Settings` class. */
  const Defaults := Settings(
    "distilbert-base-uncased-finetuned-sst-2-english",
    "distilbert-base-uncased",
    "auto",
    512,
    "*",
    true,
    100,
    60)

  /**
   * `cors_origins_list`: `"*"` alone gives `["*"]`; anything else is split on
   * commas and every piece is stripped.
   */
  function CorsOriginsList(s: Settings): (r: seq<string>)
    ensures s.corsOrigins == "*" ==> r == ["*"]
    ensures s.corsOrigins != "*" ==> |r| == Count(s.corsOrigins, ',') + 1
    ensures forall i :: 0 <= i < |r| ==> IsStripped(r[i])
  {
    if s.corsOrigins == "*" then ["*"]
    else
      var pieces := SplitOn(s.corsOrigins, ',');
      seq(|pieces|, i requires 0 <= i < |pieces| => Strip(pieces[i]))
  }

  /**
   * Outside the `"*"` case, the i-th origin is the i-th comma-separated piece with
   * whitespace removed at both ends, and the pieces joined by commas give back the setting.
   */
  lemma CorsOriginsArePieces(s: Settings)
    requires s.corsOrigins != "*"
    ensures var pieces, r := SplitOn(s.corsOrigins, ','), CorsOriginsList(s);
      && |r| == |pieces|
      && Join(",", pieces) == s.corsOrigins
      && forall i :: 0 <= i < |r| ==> r[i] == Strip(pieces[i]) && ',' !in r[i]
  {
    var pieces := SplitOn(s.corsOrigins, ',');
    JoinSplitOn(s.corsOrigins, ',');
    forall i | 0 <= i < |pieces| ensures ',' !in Strip(pieces[i]) {
      var a := StripSlice(pieces[i]);
      assert ',' !in pieces[i];
    }
  }

  /** An empty setting yields one empty origin. */
  lemma CorsOriginsEmpty(s: Settings)
    requires s.corsOrigins == ""
    ensures CorsOriginsList(s) == [""]
  {
  }

  /** A setting without a comma names one origin: itself, stripped. */
  lemma CorsOriginsSingle(s: Settings)
    requires s.corsOrigins != "*" && ',' !in s.corsOrigins
    ensures CorsOriginsList(s) == [Strip(s.corsOrigins)]
  {
    SplitOnWithoutSep(s.corsOrigins, ',');
  }

  /** `"*"` with surrounding whitespace is not the wildcard case, but it still yields `["*"]`. */
  lemma CorsOriginsPaddedStar(s: Settings)
    requires s.corsOrigins == " * "
    ensures CorsOriginsList(s) == ["*"]
  {
    CorsOriginsSingle(s);
    assert " * "[1..] == "* " && "* "[..1] == "*";
    assert Strip(" * ") == Strip("* ") == Strip("*") == "*";
  }

  /** With the declared defaults every origin is allowed. */
  lemma CorsOriginsDefault()
    ensures CorsOriginsList(Defaults) == ["*"]
  {
  }
}
