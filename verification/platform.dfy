/**
 * Choice of the video source (webrtc_wrapper.py:32, 40-58): the per-OS default
 * camera, and the fallback to it when no usable source is given.
 */
module Platform {
  import opened Wrappers

  /** A capture source: a device path or URL-like string, or a camera index. */
  datatype Source = Path(path: string) | Index(index: int)

  const UNSUPPORTED_OS: string := "Unsupported OS"

  /** The operating systems that have a default camera. */
  const SupportedSystems: set<string> := {"Linux", "Darwin", "Windows"}

  /**
   * The default camera for an OS name as `platform.system()` reports it; any
   * other name raises RuntimeError("Unsupported OS").
   */
  function DefaultSource(system: string): (r: Result<Source, string>)
    ensures r.Success? <==> system in SupportedSystems
    ensures r.Failure? ==> r.error == UNSUPPORTED_OS
    ensures system == "Linux" ==> r == Success(Path("/dev/video0"))
    ensures system == "Darwin" ==> r == Success(Path("default:none"))
    ensures system == "Windows" ==> r == Success(Index(0))
  {
    if system == "Linux" then Success(Path("/dev/video0"))
    else if system == "Darwin" then Success(Path("default:none"))
    else if system == "Windows" then Success(Index(0))
    else Failure(UNSUPPORTED_OS)
  }

  /** Python truthiness of a given source: the empty string and index 0 are false. */
  predicate Truthy(s: Source) {
    match s
    case Path(p) => p != ""
    case Index(i) => i != 0
  }

  /**
   * `source or self.get_default_source()`: a truthy source is kept; a missing
   * or falsy one (None, "", 0) is replaced by the OS default, which may fail.
   */
  function ResolveSource(given: Option<Source>, system: string): (r: Result<Source, string>)
    ensures given.Some? && Truthy(given.value) ==> r == Success(given.value)
    // resolution fails only when the default is needed and the OS has none
    ensures r.Failure? <==> !(given.Some? && Truthy(given.value)) && system !in SupportedSystems
    ensures r.Failure? ==> r.error == UNSUPPORTED_OS
    // the only falsy source resolution can yield is Windows' camera index 0
    ensures r.Success? && !Truthy(r.value) ==> system == "Windows" && r.value == Index(0)
  {
    match given
    case Some(s) => if Truthy(s) then Success(s) else DefaultSource(system)
    case None => DefaultSource(system)
  }

  /** Resolving a resolved source again changes nothing. */
  lemma ResolveIdempotent(given: Option<Source>, system: string)
    requires ResolveSource(given, system).Success?
    ensures ResolveSource(Some(ResolveSource(given, system).value), system) == ResolveSource(given, system)
  {
  }

  /** The default sources of distinct supported systems are distinct. */
  lemma DefaultsDistinct(s1: string, s2: string)
    requires s1 in SupportedSystems && s2 in SupportedSystems && s1 != s2
    ensures DefaultSource(s1) != DefaultSource(s2)
  {
  }

  /**
   * Camera index 0 given explicitly is falsy, so it is not used as given: on
   * Linux it becomes "/dev/video0", and on an unsupported OS resolution fails.
   */
  lemma ExplicitIndexZeroFallsBack(system: string)
    ensures system == "Linux" ==> ResolveSource(Some(Index(0)), system) == Success(Path("/dev/video0"))
    ensures system !in SupportedSystems ==> ResolveSource(Some(Index(0)), system).Failure?
  {
  }
}
