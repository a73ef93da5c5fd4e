/**
 * The requester authorization check: a content-provider URI is accepted only when its
 * provider resolves to a package on the approved-requesters allow-list and one of that
 * package's signing certificates hashes (SHA-256, lowercase hex) to the listed digest.
 * The allow-list is parsed lazily from a packaged XML resource into a process-wide map.
 */
module RequestHelper {
  import opened Wrappers
  import opened JvmText
  import opened Values

  /** AppContextRequestStatus. */
  datatype RequestStatus = Valid | InvalidUriProvider | InvalidRequesterPackage | SignatureCheckFailed

  // ---------------------------------------------------------------------------
  // Lowercase hex encoding of digests

  predicate IsHexChar(c: char) { '0' <= c <= '9' || 'a' <= c <= 'f' }

  function HexDigit(d: nat): (c: char)
    requires d < 16
    ensures IsHexChar(c)
  {
    if d < 10 then ('0' as int + d) as char else ('a' as int + d - 10) as char
  }

  function HexValue(c: char): (d: nat)
    requires IsHexChar(c)
    ensures d < 16
  {
    if c <= '9' then c as int - '0' as int else c as int - 'a' as int + 10
  }

  /** `b.toInt() and 0xFF`: the unsigned value of a signed byte. */
  function Unsigned(b: int8): (u: nat)
    ensures u < 256
  {
    (b as int) % 256
  }

  /** `Integer.toHexString(n)` for 0 <= n < 256: lowercase hex without leading zeros. */
  function IntegerToHexString(n: nat): (s: string)
    requires n < 256
  {
    if n < 16 then [HexDigit(n)] else [HexDigit(n / 16), HexDigit(n % 16)]
  }

  /** The reference encoding of one byte: two hex digits, high nibble first. */
  function HexPair(b: int8): string
  {
    [HexDigit(Unsigned(b) / 16), HexDigit(Unsigned(b) % 16)]
  }

  /** The reference encoding of a byte string: the pairs of its bytes, in order. */
  function Hex(bytes: seq<int8>): string
  {
    if bytes == [] then "" else Hex(bytes[..|bytes| - 1]) + HexPair(bytes[|bytes| - 1])
  }

  /** toHexString: appends each byte's `Integer.toHexString`, left-padded with '0' to even length. */
  method ToHexString(bytes: seq<int8>) returns (hex: string)
    ensures hex == Hex(bytes)
  {
    var buffer := "";
    for i := 0 to |bytes|
      invariant buffer == Hex(bytes[..i])
    {
      var decimal := Unsigned(bytes[i]);
      var digits := IntegerToHexString(decimal);
      if |digits| % 2 == 1 {
        buffer := buffer + "0";
      }
      buffer := buffer + digits;
      assert bytes[..i + 1][..i] == bytes[..i];
    }
    assert bytes[..|bytes|] == bytes;
    hex := buffer;
  }

  /** Reads one pair of hex digits back as a signed byte. */
  function DecodePair(hi: char, lo: char): int8
    requires IsHexChar(hi) && IsHexChar(lo)
  {
    var u := HexValue(hi) * 16 + HexValue(lo);
    if u >= 128 then (u - 256) as int8 else u as int8
  }

  predicate IsHexText(s: string)
  {
    |s| % 2 == 0 && forall i :: 0 <= i < |s| ==> IsHexChar(s[i])
  }

  function DecodeHex(s: string): seq<int8>
    requires IsHexText(s)
  {
    if s == [] then [] else DecodeHex(s[..|s| - 2]) + [DecodePair(s[|s| - 2], s[|s| - 1])]
  }

  /** A digest's text has two lowercase hex digits per byte and nothing else. */
  lemma {:induction false} HexShape(bytes: seq<int8>)
    ensures |Hex(bytes)| == 2 * |bytes|
    ensures IsHexText(Hex(bytes))
  {
    if bytes != [] {
      HexShape(bytes[..|bytes| - 1]);
    }
  }

  /** Each pair of the text decodes back to its byte, so the whole text decodes to the input. */
  lemma {:induction false} HexRoundTrip(bytes: seq<int8>)
    ensures IsHexText(Hex(bytes)) && DecodeHex(Hex(bytes)) == bytes
  {
    HexShape(bytes);
    if bytes != [] {
      var init, last := bytes[..|bytes| - 1], bytes[|bytes| - 1];
      HexRoundTrip(init);
      var s := Hex(bytes);
      assert s[..|s| - 2] == Hex(init);
      var u := Unsigned(last);
      assert HexValue(HexDigit(u / 16)) == u / 16;
      assert HexValue(HexDigit(u % 16)) == u % 16;
      assert DecodePair(s[|s| - 2], s[|s| - 1]) == last;
      assert bytes == init + [last];
    }
  }

  /** Comparing hex texts compares the digests themselves. */
  lemma HexInjective(a: seq<int8>, b: seq<int8>)
    ensures Hex(a) == Hex(b) <==> a == b
  {
    HexRoundTrip(a);
    HexRoundTrip(b);
  }

  // ---------------------------------------------------------------------------
  // The approved-requesters resource as a stream of XML pull events

  /**
   * One pull-parser event. END_DOCUMENT is the end of the sequence; `ReadError` stands for
   * `next()` raising XmlPullParserException or IOException at that point.
   */
  datatype XmlEvent =
    | StartTag(name: string, nameAttribute: Option<string>)
    | Text(text: string)
    | EndTag(name: string)
    | OtherEvent
    | ReadError

  datatype ParserState = ParserState(packageName: Option<string>, currentTag: Option<string>, approved: map<string, string>)

  /** `TextUtils.isEmpty`: null or of length zero. */
  predicate IsEmpty(s: Option<string>) { s.None? || s.value == "" }

  /** One turn of the parsing loop. */
  function Step(st: ParserState, e: XmlEvent): ParserState
  {
    match e
    case StartTag(name, attribute) =>
      if name == "package" then st.(currentTag := Some(name), packageName := attribute)
      else st.(currentTag := Some(name))
    case Text(text) =>
      if !IsEmpty(st.currentTag) && st.currentTag == Some("cert-digest") && !IsEmpty(st.packageName) && text != ""
      then st.(approved := st.approved[st.packageName.value := text])
      else st
    case EndTag(name) =>
      if name == "package" then st.(currentTag := None, packageName := None) else st
    case OtherEvent => st
    case ReadError => st
  }

  /** The loop up to the end of the document or the first read error. */
  function Run(st: ParserState, events: seq<XmlEvent>): ParserState
    decreases |events|
  {
    if events == [] || events[0].ReadError? then st else Run(Step(st, events[0]), events[1..])
  }

  function Start(approved: map<string, string>): ParserState
  {
    ParserState(None, None, approved)
  }

  predicate NoEmptyEntries(m: map<string, string>)
  {
    forall k :: k in m ==> k != "" && m[k] != ""
  }

  /** A text records (package, digest) exactly inside cert-digest of a named package, when non-empty. */
  lemma TextRecordsOnlyInsideDigest(st: ParserState, text: string)
    ensures (st.currentTag == Some("cert-digest") && st.packageName.Some? && st.packageName.value != "" && text != "") ==>
      Step(st, Text(text)).approved == st.approved[st.packageName.value := text]
    ensures !(st.currentTag == Some("cert-digest") && st.packageName.Some? && st.packageName.value != "" && text != "") ==>
      Step(st, Text(text)) == st
  {
  }

  /** `</package>` forgets both the current tag and the package name; other end tags forget nothing. */
  lemma PackageEndClears(st: ParserState, name: string)
    ensures name == "package" ==> Step(st, EndTag(name)) == ParserState(None, None, st.approved)
    ensures name != "package" ==> Step(st, EndTag(name)) == st
  {
  }

  /** Parsing never records an empty package name or an empty digest. */
  lemma {:induction false} RunKeepsEntriesNonEmpty(st: ParserState, events: seq<XmlEvent>)
    requires NoEmptyEntries(st.approved)
    ensures NoEmptyEntries(Run(st, events).approved)
    decreases |events|
  {
    if events != [] && !events[0].ReadError? {
      RunKeepsEntriesNonEmpty(Step(st, events[0]), events[1..]);
    }
  }

  /** Parsing only adds or overwrites entries: no key recorded earlier is lost. */
  lemma {:induction false} RunKeepsKeys(st: ParserState, events: seq<XmlEvent>)
    ensures st.approved.Keys <= Run(st, events).approved.Keys
    decreases |events|
  {
    if events != [] && !events[0].ReadError? {
      RunKeepsKeys(Step(st, events[0]), events[1..]);
    }
  }

  /** A read error ends loading; what was recorded before it is kept, nothing after it is read. */
  lemma {:induction false} RunStopsAtReadError(st: ParserState, events: seq<XmlEvent>, i: nat)
    requires i < |events| && events[i].ReadError?
    ensures Run(st, events) == Run(st, events[..i])
    decreases i
  {
    if i > 0 && !events[0].ReadError? {
      RunStopsAtReadError(Step(st, events[0]), events[1..], i - 1);
      assert events[1..][..i - 1] == events[..i][1..];
    }
  }

  /** A later digest for the same package replaces the earlier one. */
  lemma LaterDigestWins(pkg: string, d1: string, d2: string)
    requires pkg != "" && d1 != "" && d2 != ""
    ensures Run(Start(map[]), [
      StartTag("package", Some(pkg)), StartTag("cert-digest", None), Text(d1), EndTag("cert-digest"),
      StartTag("cert-digest", None), Text(d2), EndTag("cert-digest"), EndTag("package")]).approved
      == map[pkg := d2]
  {
    var events := [
      StartTag("package", Some(pkg)), StartTag("cert-digest", None), Text(d1), EndTag("cert-digest"),
      StartTag("cert-digest", None), Text(d2), EndTag("cert-digest"), EndTag("package")];
    var inDigest := ParserState(Some(pkg), Some("cert-digest"), map[]);
    var first := inDigest.(approved := map[pkg := d1]);
    var second := inDigest.(approved := map[pkg := d2]);
    assert Run(Start(map[]), events) == Run(inDigest, events[2..]);
    assert Run(inDigest, events[2..]) == Run(first, events[4..]);
    assert map[pkg := d1][pkg := d2] == map[pkg := d2];
    assert Run(first, events[4..]) == Run(first, events[5..]);
    assert Run(first, events[5..]) == Run(second, events[6..]);
    assert Run(second, events[6..]) == Run(second, events[7..]);
    assert Run(second, events[7..]) == ParserState(None, None, map[pkg := d2]);
  }

  /**
   * The current tag is forgotten only at `</package>`, not at `</cert-digest>`: a non-empty
   * text between `</cert-digest>` and `</package>` replaces the package's digest.
   */
  lemma TextAfterDigestReplacesIt(pkg: string, d: string, stray: string)
    requires pkg != "" && d != "" && stray != ""
    ensures Run(Start(map[]), [
      StartTag("package", Some(pkg)), StartTag("cert-digest", None), Text(d), EndTag("cert-digest"),
      Text(stray), EndTag("package")]).approved
      == map[pkg := stray]
  {
    var events := [
      StartTag("package", Some(pkg)), StartTag("cert-digest", None), Text(d), EndTag("cert-digest"),
      Text(stray), EndTag("package")];
    var inDigest := ParserState(Some(pkg), Some("cert-digest"), map[]);
    var first := inDigest.(approved := map[pkg := d]);
    var second := inDigest.(approved := map[pkg := stray]);
    assert Run(Start(map[]), events) == Run(inDigest, events[2..]);
    assert Run(inDigest, events[2..]) == Run(first, events[4..]);
    assert map[pkg := d][pkg := stray] == map[pkg := stray];
    assert Run(first, events[4..]) == Run(second, events[5..]);
    assert Run(second, events[5..]) == ParserState(None, None, map[pkg := stray]);
  }

  // ---------------------------------------------------------------------------
  // The platform, as oracles

  /** What `getSignatures` yields: NameNotFoundException, a null array, or the certificates. */
  datatype SignatureLookup = PackageNotFound | NullSignatures | Signatures(certificates: seq<seq<int8>>)

  /**
   * The platform collaborators: provider resolution (authority to owning package),
   * signing-certificate retrieval, SHA-256 (with whether the algorithm is available),
   * the library's build type and the packaged allow-list resource.
   */
  datatype Platform = Platform(
    resolveProvider: string -> Option<string>,
    signaturesOf: string -> SignatureLookup,
    sha256Available: bool,
    sha256: seq<int8> -> seq<int8>,
    debugBuild: bool,
    requestersXml: seq<XmlEvent>)

  /** handleDebugBuild: a debug build accepts an unmatched signature. */
  function DebugBuildVerdict(debugBuild: bool): RequestStatus
  {
    if debugBuild then Valid else SignatureCheckFailed
  }

  predicate SomeSignatureMatches(certificates: seq<seq<int8>>, sha256: seq<int8> -> seq<int8>, stored: Option<string>)
  {
    exists i :: 0 <= i < |certificates| && Some(Hex(sha256(certificates[i]))) == stored
  }

  /** The outcome of verifySignatureDigest against a stored digest. */
  function SignatureVerdict(stored: Option<string>, lookup: SignatureLookup, p: Platform): RequestStatus
  {
    match lookup
    case PackageNotFound => SignatureCheckFailed
    case NullSignatures => SignatureCheckFailed
    case Signatures(certificates) =>
      if !p.sha256Available then SignatureCheckFailed
      else if SomeSignatureMatches(certificates, p.sha256, stored) then Valid
      else DebugBuildVerdict(p.debugBuild)
  }

  /** The allow-list a check works with: the current one, or a fresh load when it is empty. */
  function LoadedRequesters(approved: map<string, string>, p: Platform): map<string, string>
  {
    if approved == map[] then Run(Start(approved), p.requestersXml).approved else approved
  }

  /** The allow-list after a check: loading happens only once a provider has resolved. */
  function ApprovedAfter(approved: map<string, string>, authority: Option<string>, p: Platform): map<string, string>
  {
    if authority.None? || p.resolveProvider(authority.value).None? then approved
    else LoadedRequesters(approved, p)
  }

  /** The result of validateContentProviderAuthority. */
  function Validation(approved: map<string, string>, authority: Option<string>, p: Platform): Result<RequestStatus, Error>
  {
    if authority.None? then Failure(NullAuthority)
    else match p.resolveProvider(authority.value)
      case None => Success(InvalidUriProvider)
      case Some(pkg) =>
        var list := LoadedRequesters(approved, p);
        if list == map[] || pkg !in list then Success(InvalidRequesterPackage)
        else Success(SignatureVerdict(Some(list[pkg]), p.signaturesOf(pkg), p))
  }

  /** The process-wide allow-list (APPROVED_CONTEXT_REQUESTERS) and the checks that use it. */
  class RequesterRegistry {
    var approved: map<string, string>

    constructor()
      ensures approved == map[]
    {
      approved := map[];
    }

    /** validateContentProviderAuthority, for a URI whose authority is given. */
    method ValidateContentProviderAuthority(authority: Option<string>, p: Platform)
      returns (r: Result<RequestStatus, Error>)
      modifies this
      ensures approved == ApprovedAfter(old(approved), authority, p)
      ensures r == Validation(old(approved), authority, p)
    {
      if authority.None? {
        return Failure(NullAuthority);
      }
      var provider := p.resolveProvider(authority.value);
      if provider.None? {
        return Success(InvalidUriProvider);
      }
      if approved == map[] {
        InitializeApprovedRequesters(p.requestersXml);
        if approved == map[] {
          return Success(InvalidRequesterPackage);
        }
      }
      if !IsCallerApproved(provider.value) {
        return Success(InvalidRequesterPackage);
      }
      var status := VerifySignatureDigest(provider.value, p);
      return Success(status);
    }

    predicate IsCallerApproved(packageName: string)
      reads this
    {
      packageName in approved
    }

    /** verifySignatureDigest: the first certificate whose hex SHA-256 equals the stored digest wins. */
    method VerifySignatureDigest(packageName: string, p: Platform) returns (status: RequestStatus)
      ensures var stored := if packageName in approved then Some(approved[packageName]) else None;
        status == SignatureVerdict(stored, p.signaturesOf(packageName), p)
    {
      var stored := if packageName in approved then Some(approved[packageName]) else None;
      var lookup := p.signaturesOf(packageName);
      if lookup.PackageNotFound? || lookup.NullSignatures? {
        return SignatureCheckFailed;
      }
      if !p.sha256Available {
        return SignatureCheckFailed;
      }
      var certificates := lookup.certificates;
      for i := 0 to |certificates|
        invariant forall j :: 0 <= j < i ==> Some(Hex(p.sha256(certificates[j]))) != stored
      {
        var digest := ToHexString(p.sha256(certificates[i]));
        if Some(digest) == stored {
          return Valid;
        }
      }
      status := DebugBuildVerdict(p.debugBuild);
    }

    /** initializeApprovedRequesters: runs the pull-parser loop over the resource's events. */
    method InitializeApprovedRequesters(events: seq<XmlEvent>)
      modifies this
      ensures approved == Run(Start(old(approved)), events).approved
    {
      var packageName: Option<string> := None;
      var currentTag: Option<string> := None;
      var i := 0;
      while i < |events| && !events[i].ReadError?
        invariant 0 <= i <= |events|
        invariant Run(Start(old(approved)), events) == Run(ParserState(packageName, currentTag, approved), events[i..])
      {
        ghost var before := ParserState(packageName, currentTag, approved);
        assert events[i..][0] == events[i] && events[i..][1..] == events[i + 1..];
        match events[i] {
          case StartTag(name, attribute) =>
            currentTag := Some(name);
            if name == "package" {
              packageName := attribute;
            }
          case Text(text) =>
            if !IsEmpty(currentTag) && currentTag == Some("cert-digest") && !IsEmpty(packageName) && text != "" {
              approved := approved[packageName.value := text];
            }
          case EndTag(name) =>
            if name == "package" {
              currentTag := None;
              packageName := None;
            }
          case OtherEvent =>
          case ReadError =>
        }
        assert ParserState(packageName, currentTag, approved) == Step(before, events[i]);
        i := i + 1;
      }
    }
  }

  // ---------------------------------------------------------------------------
  // Properties of the check

  /** An unresolvable provider is rejected before the allow-list is loaded or consulted. */
  lemma UnresolvableProviderRejectedFirst(approved: map<string, string>, authority: string, p: Platform)
    requires p.resolveProvider(authority).None?
    ensures Validation(approved, Some(authority), p) == Success(InvalidUriProvider)
    ensures ApprovedAfter(approved, Some(authority), p) == approved
  {
  }

  /** The allow-list is loaded only while empty, and an empty result rejects every package. */
  lemma AllowListLoadedOnlyWhileEmpty(approved: map<string, string>, authority: string, p: Platform)
    requires p.resolveProvider(authority).Some?
    ensures approved != map[] ==> ApprovedAfter(approved, Some(authority), p) == approved
    ensures approved == map[] ==> ApprovedAfter(approved, Some(authority), p) == Run(Start(map[]), p.requestersXml).approved
    ensures ApprovedAfter(approved, Some(authority), p) == map[] ==>
      Validation(approved, Some(authority), p) == Success(InvalidRequesterPackage)
  {
  }

  /** A package that is not a key of the allow-list is rejected. */
  lemma UnapprovedPackageRejected(approved: map<string, string>, authority: string, p: Platform)
    requires p.resolveProvider(authority).Some?
    requires p.resolveProvider(authority).value !in ApprovedAfter(approved, Some(authority), p)
    ensures Validation(approved, Some(authority), p) == Success(InvalidRequesterPackage)
  {
  }

  /** Failures while fetching signatures or the digest algorithm end in SIGNATURE_CHECK_FAILED, never an exception. */
  lemma SignatureFailuresReported(approved: map<string, string>, authority: string, p: Platform)
    requires p.resolveProvider(authority).Some?
    requires p.resolveProvider(authority).value in ApprovedAfter(approved, Some(authority), p)
    requires var lookup := p.signaturesOf(p.resolveProvider(authority).value);
      lookup.PackageNotFound? || lookup.NullSignatures? || !p.sha256Available
    ensures Validation(approved, Some(authority), p) == Success(SignatureCheckFailed)
  {
  }

  /**
   * A request is VALID exactly when the provider resolves to an approved package whose
   * certificates could be read and hashed, and either one of them matches the stored
   * digest or the build is a debug build.
   */
  lemma ValidIff(approved: map<string, string>, authority: Option<string>, p: Platform)
    ensures Validation(approved, authority, p) == Success(Valid) <==>
      authority.Some? && p.resolveProvider(authority.value).Some? &&
      var pkg := p.resolveProvider(authority.value).value;
      var list := ApprovedAfter(approved, authority, p);
      pkg in list && p.signaturesOf(pkg).Signatures? && p.sha256Available &&
      (SomeSignatureMatches(p.signaturesOf(pkg).certificates, p.sha256, Some(list[pkg])) || p.debugBuild)
  {
  }

  /** In a release build a VALID verdict means some certificate's digest equals the stored one. */
  lemma ReleaseValidNeedsMatchingCertificate(approved: map<string, string>, authority: Option<string>, p: Platform)
    requires !p.debugBuild
    requires Validation(approved, authority, p) == Success(Valid)
    ensures authority.Some? && p.resolveProvider(authority.value).Some?
    ensures var pkg := p.resolveProvider(authority.value).value;
      var list := ApprovedAfter(approved, authority, p);
      pkg in list && p.signaturesOf(pkg).Signatures? &&
      exists c :: c in p.signaturesOf(pkg).certificates && Hex(p.sha256(c)) == list[pkg]
  {
    ValidIff(approved, authority, p);
    var pkg := p.resolveProvider(authority.value).value;
    var list := ApprovedAfter(approved, authority, p);
    var certificates := p.signaturesOf(pkg).certificates;
    var i :| 0 <= i < |certificates| && Some(Hex(p.sha256(certificates[i]))) == Some(list[pkg]);
    assert certificates[i] in certificates;
  }

  /**
   * In a release build, an approved package whose certificates were read and hashed but
   * none of which matches the stored digest is reported as SIGNATURE_CHECK_FAILED.
   */
  lemma ReleaseMismatchFails(approved: map<string, string>, authority: string, p: Platform)
    requires !p.debugBuild && p.resolveProvider(authority).Some?
    requires var pkg := p.resolveProvider(authority).value;
      var list := ApprovedAfter(approved, Some(authority), p);
      pkg in list && p.signaturesOf(pkg).Signatures? && p.sha256Available &&
      !SomeSignatureMatches(p.signaturesOf(pkg).certificates, p.sha256, Some(list[pkg]))
    ensures Validation(approved, Some(authority), p) == Success(SignatureCheckFailed)
  {
  }

  /** Checking the same URI twice against an unchanged platform gives the same answer and the same allow-list. */
  lemma ValidationIdempotent(approved: map<string, string>, authority: Option<string>, p: Platform)
    ensures ApprovedAfter(ApprovedAfter(approved, authority, p), authority, p) == ApprovedAfter(approved, authority, p)
    ensures Validation(ApprovedAfter(approved, authority, p), authority, p) == Validation(approved, authority, p)
  {
  }

  /**
   * The worked example: with the allow-list holding com.microsoft.appmanager and digest D,
   * a provider of that package signed by a certificate hashing to D is VALID.
   */
  lemma ApprovedPackageExample(p: Platform, authority: string, cert: seq<int8>, d: string)
    requires p.resolveProvider(authority) == Some("com.microsoft.appmanager")
    requires p.signaturesOf("com.microsoft.appmanager") == Signatures([cert])
    requires p.sha256Available && Hex(p.sha256(cert)) == d
    ensures Validation(map["com.microsoft.appmanager" := d], Some(authority), p) == Success(Valid)
  {
    var list := map["com.microsoft.appmanager" := d];
    assert "com.microsoft.appmanager" in list;
    assert LoadedRequesters(list, p) == list;
    var certificates := [cert];
    assert Some(Hex(p.sha256(certificates[0]))) == Some(list["com.microsoft.appmanager"]);
  }

  /**
   * The verdicts for com.microsoft.appmanager as its certificates change: null signatures
   * fail the check; a single empty certificate whose digest does not match the listed one
   * fails in a release build and is VALID in a debug build.
   */
  lemma AppManagerSignatureCases(p: Platform, authority: string, d: string)
    requires p.resolveProvider(authority) == Some("com.microsoft.appmanager")
    requires p.sha256Available && Hex(p.sha256([])) != d
    ensures p.signaturesOf("com.microsoft.appmanager") == NullSignatures ==>
      Validation(map["com.microsoft.appmanager" := d], Some(authority), p) == Success(SignatureCheckFailed)
    ensures p.signaturesOf("com.microsoft.appmanager") == Signatures([[]]) ==>
      Validation(map["com.microsoft.appmanager" := d], Some(authority), p) ==
      Success(if p.debugBuild then Valid else SignatureCheckFailed)
  {
    var list := map["com.microsoft.appmanager" := d];
    assert "com.microsoft.appmanager" in list;
    assert LoadedRequesters(list, p) == list;
    if p.signaturesOf("com.microsoft.appmanager") == Signatures([[]]) {
      var certificates: seq<seq<int8>> := [[]];
      assert !SomeSignatureMatches(certificates, p.sha256, Some(list["com.microsoft.appmanager"])) by {
        forall i | 0 <= i < |certificates| ensures Some(Hex(p.sha256(certificates[i]))) != Some(d) {
          assert certificates[i] == [];
        }
      }
    }
  }

  /** With the same allow-list, a provider owned by com.microsoft.appmanagerfake is an unapproved requester. */
  lemma LookalikePackageExample(p: Platform, authority: string, d: string)
    requires p.resolveProvider(authority) == Some("com.microsoft.appmanagerfake")
    ensures Validation(map["com.microsoft.appmanager" := d], Some(authority), p) == Success(InvalidRequesterPackage)
  {
    var list := map["com.microsoft.appmanager" := d];
    assert "com.microsoft.appmanager" in list;
    assert LoadedRequesters(list, p) == list;
    assert "com.microsoft.appmanagerfake" != "com.microsoft.appmanager";
  }
}
