/**
 * Classification of the running operating system and CPU architecture, from the
 * GOOS and GOARCH strings the Go runtime reports.
 */
module Detector {
  import opened Text

  datatype OS = Windows | Darwin | Linux | Unknown
  datatype Arch = AMD64 | ARM64 | I386 | UnknownArch

  /** The string value of each OS constant. */
  function OSValue(os: OS): string {
    match os
    case Windows => "windows"
    case Darwin => "darwin"
    case Linux => "linux"
    case Unknown => "unknown"
  }

  /** The string value of each Arch constant. */
  function ArchValue(arch: Arch): string {
    match arch
    case AMD64 => "amd64"
    case ARM64 => "arm64"
    case I386 => "386"
    case UnknownArch => "unknown"
  }

  /** The platform record; osString keeps the raw GOOS. */
  datatype Platform = Platform(os: OS, arch: Arch, osString: string, isWSL: bool)

  /** The OS that a GOOS value names. */
  function OSOf(goos: string): (os: OS)
    ensures os != Unknown ==> OSValue(os) == goos
    ensures os == Unknown <==> goos != "windows" && goos != "darwin" && goos != "linux"
  {
    if goos == "windows" then Windows
    else if goos == "darwin" then Darwin
    else if goos == "linux" then Linux
    else Unknown
  }

  /** The Arch that a GOARCH value names. */
  function ArchOf(goarch: string): (arch: Arch)
    ensures arch != UnknownArch ==> ArchValue(arch) == goarch
    ensures arch == UnknownArch <==> goarch != "amd64" && goarch != "arm64" && goarch != "386"
  {
    if goarch == "amd64" then AMD64
    else if goarch == "arm64" then ARM64
    else if goarch == "386" then I386
    else UnknownArch
  }

  /** The probe for /proc/sys/fs/binfmt_misc/WSLInterop; the program leaves it as a stub that answers false. */
  function CheckWSLInterop(): bool { false }

  /** The probe of /proc/version for "Microsoft"; also a stub that answers false. */
  function CheckWSLProc(): bool { false }

  /** isWSL: a Linux GOOS together with one of the two probes answering true. */
  predicate IsWSLWith(goos: string, interop: bool, proc: bool) {
    Contains(ToLower(goos), "linux") && (interop || proc)
  }

  predicate IsWSL(goos: string) {
    IsWSLWith(goos, CheckWSLInterop(), CheckWSLProc())
  }

  /** With the stub probes, no platform is ever classified as WSL. */
  lemma IsWSLNever(goos: string)
    ensures !IsWSL(goos)
  {
  }

  /** Current: the platform record for the given GOOS and GOARCH. */
  method Current(goos: string, goarch: string) returns (p: Platform)
    ensures p.osString == goos
    ensures p.os == OSOf(goos) && p.arch == ArchOf(goarch)
    ensures p.isWSL ==> p.os == Linux
    ensures p.isWSL == (goos == "linux" && IsWSL(goos))
  {
    p := Platform(Unknown, UnknownArch, goos, false);
    if goos == "windows" {
      p := p.(os := Windows);
    } else if goos == "darwin" {
      p := p.(os := Darwin);
    } else if goos == "linux" {
      p := p.(os := Linux, isWSL := IsWSL(goos));
    } else {
      p := p.(os := Unknown);
    }
    if goarch == "amd64" {
      p := p.(arch := AMD64);
    } else if goarch == "arm64" {
      p := p.(arch := ARM64);
    } else if goarch == "386" {
      p := p.(arch := I386);
    } else {
      p := p.(arch := UnknownArch);
    }
  }

  predicate IsWindows(goos: string) { goos == "windows" }
  predicate IsDarwin(goos: string) { goos == "darwin" }
  predicate IsLinux(goos: string) { goos == "linux" }

  /** At most one of IsWindows, IsDarwin and IsLinux holds, and each agrees with the OS classification. */
  lemma AtMostOneOS(goos: string)
    ensures !(IsWindows(goos) && IsDarwin(goos))
    ensures !(IsWindows(goos) && IsLinux(goos))
    ensures !(IsDarwin(goos) && IsLinux(goos))
    ensures IsWindows(goos) <==> OSOf(goos) == Windows
    ensures IsDarwin(goos) <==> OSOf(goos) == Darwin
    ensures IsLinux(goos) <==> OSOf(goos) == Linux
  {
  }

  /** The OS part of String(): a display name for the known systems, the raw value otherwise. */
  function OSName(os: OS, isWSL: bool): (name: string)
    ensures '/' !in name
  {
    match os
    case Windows => "Windows"
    case Darwin => "macOS"
    case Linux => if isWSL then "Linux (WSL)" else "Linux"
    case Unknown => OSValue(os)
  }

  /** Platform.String: the OS name, a slash, and the architecture value. */
  function String(p: Platform): string {
    OSName(p.os, p.isWSL) + "/" + ArchValue(p.arch)
  }

  /** String splits at its one slash into the OS name and the architecture value. */
  lemma {:induction false} StringSplits(p: Platform)
    ensures Split(String(p), '/') == [OSName(p.os, p.isWSL), ArchValue(p.arch)]
  {
    var parts := [OSName(p.os, p.isWSL), ArchValue(p.arch)];
    assert Join(parts[1..], '/') == ArchValue(p.arch);
    assert Join(parts, '/') == String(p);
    SplitJoin(parts, '/');
  }

  /** Two platforms with the same String have the same OS, architecture and (on Linux) WSL flag. */
  lemma {:induction false} StringDetermines(p: Platform, q: Platform)
    requires String(p) == String(q)
    ensures p.os == q.os && p.arch == q.arch
    ensures p.os == Linux ==> p.isWSL == q.isWSL
  {
    StringSplits(p);
    StringSplits(q);
    assert OSName(p.os, p.isWSL) == OSName(q.os, q.isWSL);
    assert ArchValue(p.arch) == ArchValue(q.arch);
  }

  /** GetOSKey: the key under which tool definitions hold this platform's install spec. */
  function GetOSKey(p: Platform): (key: string)
    ensures key in {"windows", "darwin", "linux", "unknown"}
    ensures OSOf(key) == p.os
  {
    OSValue(p.os)
  }
}
