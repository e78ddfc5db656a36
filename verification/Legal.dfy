/** The legal gate of `create`: which document versions are in force, and what a borrower has to accept. */
module Legal {
  import opened Domain
  import opened Text

  datatype Versions = Versions(offer: string, cancellation: string)

  /** What the request says about the documents. */
  datatype Consent = Consent(offerAccepted: bool, rentalRulesAccepted: bool, versions: Versions)

  predicate IsLetterOrDigit(c: char) {
    'a' <= c <= 'z' || 'A' <= c <= 'Z' || '0' <= c <= '9'
  }

  function Lower(c: char): char {
    if 'A' <= c <= 'Z' then c - 'A' + 'a' else c
  }

  predicate SaysDraft(version: string) {
    exists i | 0 <= i <= |version| - 5 ::
      Lower(version[i]) == 'd' && Lower(version[i + 1]) == 'r' && Lower(version[i + 2]) == 'a' &&
      Lower(version[i + 3]) == 'f' && Lower(version[i + 4]) == 't'
  }

  /** One to 64 letters, digits, dots, underscores and dashes, the first a letter or digit, and no draft. */
  predicate IsApproved(version: string) {
    && 1 <= |version| <= 64 && IsLetterOrDigit(version[0])
    && (forall i | 0 <= i < |version| :: IsLetterOrDigit(version[i]) || version[i] in "._-")
    && !SaysDraft(version)
  }

  /** The configured versions, when both are there and approved. */
  function InForce(offer: Option<string>, cancellation: Option<string>): (v: Option<Versions>)
    ensures v.Some? <==>
            offer.Some? && cancellation.Some? && IsApproved(Trim(offer.value)) && IsApproved(Trim(cancellation.value))
    ensures v.Some? ==> v.value == Versions(Trim(offer.value), Trim(cancellation.value))
  {
    if offer.None? || cancellation.None? then None
    else
      var versions := Versions(Trim(offer.value), Trim(cancellation.value));
      if IsApproved(versions.offer) && IsApproved(versions.cancellation) then Some(versions) else None
  }

  /** Why a request does not pass the gate. */
  function GateRefusal(offer: Option<string>, cancellation: Option<string>, consent: Consent): (e: Option<Error>)
    ensures e.None? <==>
            consent.offerAccepted && consent.rentalRulesAccepted &&
            InForce(offer, cancellation) == Some(consent.versions)
    ensures e == Some(LegalGateClosed) <==> InForce(offer, cancellation).None?
  {
    var versions := InForce(offer, cancellation);
    if versions.None? then Some(LegalGateClosed)
    else if !consent.offerAccepted || !consent.rentalRulesAccepted || consent.versions != versions.value
    then Some(AcceptanceRequired)
    else None
  }

  /** An approved version is never blank. */
  lemma ApprovedIsFilled(version: string)
    requires IsApproved(version)
    ensures Trim(version) != ""
  {
    TrimKeeps(version, 0);
  }
}
