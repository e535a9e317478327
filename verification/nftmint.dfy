/** The NFT modal: one metadata-URL field stored trimmed, its validator, and
    the submit handler that guards, asks the ledger client for a single-unit
    asset bound to the URL's SHA-512/256 digest, and reports the outcome. */
module NftMint {
  import opened Text
  import opened Interfaces
  import Home

  const IpfsScheme: string := "ipfs://"
  const HttpsScheme: string := "https://"

  const EnterValidUrl: string := "Please enter a valid metadata URL (ipfs://\U{2026} or https://\U{2026})."
  const PreparingMint: string := "Preparing NFT mint transaction\U{2026}"
  const NftSubmitted: string := "NFT mint submitted!"
  const NftFailed: string := "Failed to mint NFT. Please try again."

  /** The fixed identity of the minted ticket. */
  const TicketName: string := "MasterPass Ticket"
  const TicketUnit: string := "MTK"

  /** `isValidUrl`: non-empty and under the ipfs or https scheme; nothing after
      the scheme is checked. */
  function IsValidUrl(u: string): (b: bool)
    ensures b ==> |u| >= |IpfsScheme| && u != ""
    ensures b <==> u[..Min(7, |u|)] == IpfsScheme || u[..Min(8, |u|)] == HttpsScheme
  {
    if u == "" then false else StartsWith(u, IpfsScheme) || StartsWith(u, HttpsScheme)
  }

  /** A valid URL stays valid whatever follows it. */
  lemma ValidUrlExtends(u: string, rest: string)
    requires IsValidUrl(u)
    ensures IsValidUrl(u + rest)
  {
    if StartsWith(u, IpfsScheme) {
      assert (u + rest)[..7] == u[..7];
    } else {
      assert (u + rest)[..8] == u[..8];
    }
  }

  /** Concrete cases: a bare scheme passes, other schemes and the empty string do not. */
  lemma UrlExamples()
    ensures IsValidUrl("ipfs://") && IsValidUrl("ipfs://bafybe") && IsValidUrl("https://gateway")
    ensures !IsValidUrl("")
    ensures !IsValidUrl("ftp://x")
    ensures !IsValidUrl("http://x")
    ensures !IsValidUrl(" ipfs://x")
  {
    assert "ftp://x"[0] == 'f';
    assert !StartsWith("http://x", HttpsScheme) by {
      assert "http://x"[..8][4] == ':';
      assert HttpsScheme[4] == 's';
    }
    assert "http://x"[..7][0] == 'h';
    assert " ipfs://x"[0] == ' ';
  }

  /** The request `handleMint` sends: one indivisible unit of the ticket asset
      from the connected address, carrying the URL and its digest, not frozen. */
  function TicketRequest(sender: string, signer: Signer, url: string, digest: Digest): (r: AssetCreateParams)
    ensures r.sender == sender && r.signer == signer
    ensures r.total == 1 && r.decimals == 0 && !r.defaultFrozen
    ensures r.assetName == TicketName && r.unitName == TicketUnit
    ensures r.url == Some(url) && r.metadataHash == Some(digest)
  {
    AssetCreateParams(sender, signer, 1, 0, TicketName, TicketUnit, Some(url), Some(digest), false)
  }

  /** What `handleMint` does for the given URL, wallet, call outcome and hash
      function. The wallet check comes first, then the URL check; each failing
      guard gives exactly one warning and no call. Otherwise exactly one
      request is made, fixed except for the sender, the URL and its digest. */
  function MintSubmission(url: string, w: Wallet, outcome: CallOutcome, sha512_256: string -> Digest): (s: Submission)
    ensures !Connected(w) ==> s == Submission([Notice(Warning, ConnectWalletFirst)], None, false)
    ensures Connected(w) && !IsValidUrl(url) ==> s == Submission([Notice(Warning, EnterValidUrl)], None, false)
    ensures s.request.Some? <==> Connected(w) && IsValidUrl(url)
    ensures s.request.Some? ==>
              var r := s.request.value;
              Some(r.sender) == w.activeAddress && Some(r.signer) == w.transactionSigner
              && r.total == 1 && r.decimals == 0
              && r.assetName == TicketName && r.unitName == TicketUnit
              && r.url == Some(url) && r.metadataHash == Some(sha512_256(url)) && !r.defaultFrozen
    ensures s.request.Some? ==>
              |s.notices| == 2 && s.notices[0] == Notice(Info, PreparingMint)
              && s.notices[1] == OutcomeNotice(outcome, NftSubmitted, NftFailed)
    ensures s.succeeded <==> s.request.Some? && outcome.Resolved?
  {
    if !Connected(w) then
      Submission([Notice(Warning, ConnectWalletFirst)], None, false)
    else if !IsValidUrl(url) then
      Submission([Notice(Warning, EnterValidUrl)], None, false)
    else
      var request := TicketRequest(w.activeAddress.value, w.transactionSigner.value, url, sha512_256(url));
      Submission([Notice(Info, PreparingMint), OutcomeNotice(outcome, NftSubmitted, NftFailed)], Some(request), outcome.Resolved?)
  }

  /** The Mint NFT button is enabled exactly while the URL is valid and no call
      is in flight; the wallet plays no part until the form is submitted. */
  function SubmitEnabled(url: string, loading: bool): (b: bool)
    ensures b <==> (StartsWith(url, IpfsScheme) || StartsWith(url, HttpsScheme)) && !loading
  {
    IsValidUrl(url) && !loading
  }

  /** With a wallet connected, an enabled button always leads to exactly one request. */
  lemma EnabledSubmitSends(url: string, w: Wallet, outcome: CallOutcome, sha512_256: string -> Digest)
    requires Connected(w) && SubmitEnabled(url, false)
    ensures |Calls(MintSubmission(url, w, outcome, sha512_256))| == 1
  {
  }

  /** The digest sent depends on the URL alone: whoever mints it, and however
      the call ends, the same URL carries the same metadata hash. */
  lemma MetadataHashDependsOnUrlOnly(url: string, w1: Wallet, w2: Wallet, o1: CallOutcome, o2: CallOutcome,
                                      sha512_256: string -> Digest)
    requires Connected(w1) && Connected(w2) && IsValidUrl(url)
    ensures MintSubmission(url, w1, o1, sha512_256).request.value.metadataHash
            == MintSubmission(url, w2, o2, sha512_256).request.value.metadataHash
            == Some(sha512_256(url))
  {
  }

  /** The modal's local state. `home` is the page whose `setOpenMintModal`
      the modal receives as `setModalState`; `notices` is what it has enqueued
      on the snackbar and `submitted` what it has handed to the ledger client. */
  class NftMintModal {
    var metadataUrl: string
    var loading: bool
    var notices: seq<Notice>
    var submitted: seq<AssetCreateParams>
    const home: Home.HomeState

    /** The stored URL never has whitespace at either end. */
    ghost predicate Valid()
      reads this
    {
      IsTrimmed(metadataUrl)
    }

    /** The form opens empty. */
    constructor (home: Home.HomeState)
      ensures Valid()
      ensures metadataUrl == "" && !loading && notices == [] && submitted == [] && this.home == home
    {
      metadataUrl, loading, notices, submitted := "", false, [], [];
      this.home := home;
    }

    /** The input's `onChange`: every edit stores the trimmed text. */
    method OnUrlChange(value: string)
      requires Valid()
      modifies this`metadataUrl
      ensures Valid() && metadataUrl == Trim(value)
    {
      metadataUrl := Trim(value);
    }

    /** The Close button: closes the NFT modal and changes nothing else. */
    method Close()
      modifies home
      ensures home.Flags() == Home.WithFlag(old(home.Flags()), Home.MintModal, false)
    {
      home.SetOpenMintModal(false);
    }

    /** `handleMint`, with the awaited ledger call resolved as `outcome` and the
        SHA-512/256 function passed in. The notices and the request are those of
        MintSubmission; on success the URL is cleared and the NFT modal closes;
        otherwise the URL and the modal stay as they were; `loading` ends false
        once a call was made and is untouched when a guard returned early. */
    method HandleMint(w: Wallet, outcome: CallOutcome, sha512_256: string -> Digest)
      requires Valid()
      modifies this, home
      ensures Valid()
      ensures var s := MintSubmission(old(metadataUrl), w, outcome, sha512_256);
              && notices == old(notices) + s.notices
              && submitted == old(submitted) + Calls(s)
              && metadataUrl == (if s.succeeded then "" else old(metadataUrl))
              && home.Flags() == (if s.succeeded then Home.WithFlag(old(home.Flags()), Home.MintModal, false)
                                  else old(home.Flags()))
              && loading == (if s.request.Some? then false else old(loading))
    {
      if !(w.transactionSigner.Some? && Truthy(w.activeAddress)) {
        notices := notices + [Notice(Warning, ConnectWalletFirst)];
        return;
      }
      if !IsValidUrl(metadataUrl) {
        notices := notices + [Notice(Warning, EnterValidUrl)];
        return;
      }
      var request := TicketRequest(w.activeAddress.value, w.transactionSigner.value, metadataUrl, sha512_256(metadataUrl));
      Send(request, outcome);
    }

    /** The `try` block of `handleMint`: mark loading, announce, make the one
        call, report its outcome (clearing the URL and closing the modal on
        success), clear loading. */
    method Send(request: AssetCreateParams, outcome: CallOutcome)
      requires Valid()
      modifies this, home
      ensures Valid()
      ensures notices == old(notices) + [Notice(Info, PreparingMint), OutcomeNotice(outcome, NftSubmitted, NftFailed)]
      ensures submitted == old(submitted) + [request]
      ensures metadataUrl == (if outcome.Resolved? then "" else old(metadataUrl))
      ensures home.Flags() == (if outcome.Resolved? then Home.WithFlag(old(home.Flags()), Home.MintModal, false)
                               else old(home.Flags()))
      ensures !loading
    {
      loading := true;
      notices := notices + [Notice(Info, PreparingMint)];
      submitted := submitted + [request];
      match outcome {
        case Resolved(txIds) =>
          notices := notices + [Notice(Success, SubmittedMessage(NftSubmitted, FirstTxId(txIds)))];
          metadataUrl := "";
          home.SetOpenMintModal(false);
        case Rejected =>
          notices := notices + [Notice(Error, NftFailed)];
      }
      loading := false;
    }
  }
}
