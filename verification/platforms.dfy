/** The execution environment the program believes it runs in, and how it is
    detected. The compile target's OS name (Rust's `std::env::consts::OS`) and
    the contents of `/proc/version` (None when the file cannot be read) are
    parameters here. */
module Platforms {
  import opened Wrappers
  import opened Text

  datatype Platform = Linux | Wsl | MacOs | Windows | Unknown {

    /** Uses Windows notifications. */
    predicate IsWindowsLike() {
      Wsl? || Windows?
    }

    predicate IsUnixLike() {
      Linux? || MacOs?
    }

    /** The `Display` text. */
    function ToString(): string {
      match this
      case Linux => "Linux"
      case Wsl => "WSL (Windows Subsystem for Linux)"
      case MacOs => "macOS"
      case Windows => "Windows"
      case Unknown => "Unknown"
    }
  }

  /** The platform whose display text is `s`, if any: the inverse of `ToString`. */
  function FromDisplay(s: string): (r: Option<Platform>)
    ensures r.Some? ==> r.value.ToString() == s
  {
    if s == "Linux" then Some(Linux)
    else if s == "WSL (Windows Subsystem for Linux)" then Some(Wsl)
    else if s == "macOS" then Some(MacOs)
    else if s == "Windows" then Some(Windows)
    else if s == "Unknown" then Some(Unknown)
    else None
  }

  /** Every platform's display text reads back as that platform, so the five
      texts are pairwise distinct. */
  lemma DisplayRoundTrip(p: Platform)
    ensures FromDisplay(p.ToString()) == Some(p)
  {
  }

  /** The display texts the program prints. */
  lemma DisplayTexts()
    ensures Linux.ToString() == "Linux"
    ensures Wsl.ToString() == "WSL (Windows Subsystem for Linux)"
    ensures MacOs.ToString() == "macOS"
    ensures Windows.ToString() == "Windows"
    ensures Unknown.ToString() == "Unknown"
  {
  }

  /** The two classifications split the known platforms: none is both, and
      exactly Unknown is neither. */
  lemma ClassificationPartition(p: Platform)
    ensures !(p.IsWindowsLike() && p.IsUnixLike())
    ensures p.IsWindowsLike() || p.IsUnixLike() <==> p != Unknown
    ensures p.IsWindowsLike() <==> p in {Wsl, Windows}
    ensures p.IsUnixLike() <==> p in {Linux, MacOs}
  {
  }

  /** `word` occurs in the lower-cased `content`. */
  ghost predicate Mentions(content: string, word: string) {
    exists i :: OccursAt(Lower(content), word, i)
  }

  /** True when the kernel version text names Microsoft or WSL, compared
      without regard to letter case. An unreadable file means "not WSL". */
  function IsWsl(procVersion: Option<string>): (r: bool)
    ensures procVersion.None? ==> !r
    ensures procVersion.Some? ==>
      (r <==> Mentions(procVersion.value, "microsoft") || Mentions(procVersion.value, "wsl"))
  {
    if procVersion.None? then false
    else
      var lower := Lower(procVersion.value);
      ContainsIffOccurs(lower, "microsoft");
      ContainsIffOccurs(lower, "wsl");
      Contains(lower, "microsoft") || Contains(lower, "wsl")
  }

  /** Detection from the compile target's OS name. */
  function Detect(os: string, procVersion: Option<string>): (p: Platform)
    ensures p == MacOs <==> os == "macos"
    ensures p == Windows <==> os == "windows"
    ensures p == Wsl <==> os == "linux" && IsWsl(procVersion)
    ensures p == Linux <==> os == "linux" && !IsWsl(procVersion)
    ensures p == Unknown <==> os !in {"macos", "windows", "linux"}
  {
    if os == "macos" then MacOs
    else if os == "windows" then Windows
    else if os == "linux" then (if IsWsl(procVersion) then Wsl else Linux)
    else Unknown
  }

  /** Detection does not depend on letter case in the kernel version text. */
  lemma IsWslIgnoresCase(content: string)
    ensures IsWsl(Some(content)) == IsWsl(Some(Lower(content)))
  {
    assert Lower(Lower(content)) == Lower(content);
  }

  /** A target compiled for Windows reports Windows whatever the kernel text. */
  lemma WindowsTargetNeverWsl(procVersion: Option<string>)
    ensures Detect("windows", procVersion) == Windows
  {
  }

  /** A lower-case word found verbatim in the text is found by detection. */
  lemma MentionsVerbatim(content: string, word: string, i: nat)
    requires Lower(word) == word
    requires i + |word| <= |content| && content[i..i + |word|] == word
    ensures Mentions(content, word)
  {
    var lower := Lower(content);
    forall k | 0 <= k < |word|
      ensures lower[i + k] == word[k]
    {
      assert content[i..i + |word|][k] == content[i + k];
      assert Lower(word)[k] == LowerChar(word[k]);
    }
    assert lower[i..i + |word|] == word;
    assert OccursAt(lower, word, i);
  }

  /** A typical WSL2 kernel version line is recognised. */
  lemma Wsl2KernelDetected()
    ensures Detect("linux", Some("Linux version 5.15.167.4-microsoft-standard-WSL2")) == Wsl
  {
    var before, word, after := "Linux version 5.15.167.4-", "microsoft", "-standard-WSL2";
    var content := before + word + after;
    assert content == "Linux version 5.15.167.4-microsoft-standard-WSL2";
    assert Lower(word) == word;
    assert content[|before|..|before| + |word|] == word;
    MentionsVerbatim(content, word, |before|);
  }
}
