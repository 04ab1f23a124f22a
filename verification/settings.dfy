/**
 * The run configuration and its normalisation before inspection starts
 * (`struct config` and `verify_config`).
 */
module Settings {
  import opened Machine

  /** The status codes the inspector returns. */
  datatype Status = Success | UnknownError | UnknownArg | DevNotFound

  function StatusCode(s: Status): (code: nat)
    ensures s == Success <==> code == 0
  {
    match s
    case Success => 0x00
    case UnknownError => 0x01
    case UnknownArg => 0x02
    case DevNotFound => 0x04
  }

  /** Marker mode 0 reads a single trailing marker byte; mode 1 the trailing document-block metadata. */
  datatype Config = Config(marker: int, blocksize: U64, devname: string)

  const DEFAULT_BLOCKSIZE: U64 := 4096

  /** A configuration the inspector may start from. */
  predicate Normalised(c: Config)
  {
    |c.devname| > 0 && c.blocksize != 0 && (c.marker == 0 || c.marker == 1)
  }

  datatype Verdict = Verdict(status: Status, config: Config)

  /**
   * `verify_config`: a missing device name is an error that leaves the
   * configuration as it was; otherwise a zero block size falls back to 4096
   * and a marker mode other than 0 or 1 falls back to 0.
   */
  function VerifyConfig(c: Config): (r: Verdict)
    ensures r.status == DevNotFound <==> |c.devname| == 0
    ensures r.status == DevNotFound ==> r.config == c
    ensures r.status != DevNotFound ==> r.status == Success && Normalised(r.config)
    ensures r.config.devname == c.devname
    ensures c.blocksize != 0 ==> r.config.blocksize == c.blocksize
    ensures r.status == Success && c.blocksize == 0 ==> r.config.blocksize == DEFAULT_BLOCKSIZE
    ensures (c.marker == 0 || c.marker == 1) ==> r.config.marker == c.marker
    ensures r.status == Success && c.marker != 0 && c.marker != 1 ==> r.config.marker == 0
  {
    if |c.devname| == 0 then Verdict(DevNotFound, c)
    else
      var blocksize := if c.blocksize == 0 then DEFAULT_BLOCKSIZE else c.blocksize;
      var marker := if c.marker != 0 && c.marker != 1 then 0 else c.marker;
      Verdict(Success, Config(marker, blocksize, c.devname))
  }

  /** A normalised configuration is a fixed point: verifying it succeeds and changes nothing. */
  lemma {:induction false} NormalisedIsFixedPoint(c: Config)
    requires Normalised(c)
    ensures VerifyConfig(c) == Verdict(Success, c)
  {
  }

  /** Verifying twice is verifying once. */
  lemma {:induction false} VerifyConfigIdempotent(c: Config)
    ensures VerifyConfig(VerifyConfig(c).config) == VerifyConfig(c)
  {
  }
}
