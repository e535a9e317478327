/** The landing page: four independent modal flags, the abbreviated address
    shown once a wallet is connected, and which action buttons are offered. */
module Home {
  import opened Text
  import opened Interfaces

  /** "…" (U+2026), the separator between the two ends of an abbreviated address. */
  const Ellipsis: string := "\U{2026}"

  /** `shortAddr`: nothing for an absent or empty address, otherwise
      `addr.slice(0, 6) + "…" + addr.slice(-6)`. Up to six characters from each
      end, so a short address appears on both sides of the ellipsis. */
  function ShortAddr(addr: Option<string>): (r: string)
    ensures !Truthy(addr) ==> r == ""
    ensures Truthy(addr) ==>
              var a := addr.value;
              var n := Min(6, |a|);
              r == a[..n] + Ellipsis + a[|a| - n..]
  {
    if Truthy(addr) then Slice(addr.value, 0, 6) + Ellipsis + Slice(addr.value, -6, |addr.value|) else ""
  }

  /** An address of at least twelve characters is shown as thirteen: its first
      six characters, the ellipsis, and its last six. */
  lemma ShortAddrOfLongAddress(a: string)
    requires |a| >= 12
    ensures var r := ShortAddr(Some(a));
            |r| == 13 && r[..6] == a[..6] && r[6] == '\U{2026}' && r[7..] == a[|a| - 6..]
  {
    var r := ShortAddr(Some(a));
    assert r == a[..6] + Ellipsis + a[|a| - 6..];
  }

  datatype Modal = WalletModal | TransactModal | MintModal | TokenModal

  /** The values of the four modal flags. */
  datatype ModalFlags = ModalFlags(wallet: bool, transact: bool, mint: bool, token: bool)

  function IsOpen(f: ModalFlags, m: Modal): bool {
    match m
    case WalletModal => f.wallet
    case TransactModal => f.transact
    case MintModal => f.mint
    case TokenModal => f.token
  }

  /** One flag set to `v`; the other three as they were. */
  function WithFlag(f: ModalFlags, m: Modal, v: bool): (g: ModalFlags)
    ensures IsOpen(g, m) == v
    ensures forall n :: n != m ==> IsOpen(g, n) == IsOpen(f, n)
  {
    match m
    case WalletModal => f.(wallet := v)
    case TransactModal => f.(transact := v)
    case MintModal => f.(mint := v)
    case TokenModal => f.(token := v)
  }

  /** One flag negated; the other three as they were. */
  function Toggle(f: ModalFlags, m: Modal): (g: ModalFlags)
    ensures IsOpen(g, m) == !IsOpen(f, m)
    ensures forall n :: n != m ==> IsOpen(g, n) == IsOpen(f, n)
  {
    WithFlag(f, m, !IsOpen(f, m))
  }

  /** Flags that agree on every modal are the same flags. */
  lemma FlagsExtensional(f: ModalFlags, g: ModalFlags)
    requires forall m :: IsOpen(f, m) == IsOpen(g, m)
    ensures f == g
  {
    assert IsOpen(f, WalletModal) == IsOpen(g, WalletModal);
    assert IsOpen(f, TransactModal) == IsOpen(g, TransactModal);
    assert IsOpen(f, MintModal) == IsOpen(g, MintModal);
    assert IsOpen(f, TokenModal) == IsOpen(g, TokenModal);
  }

  /** Toggling the same modal twice restores the flags. */
  lemma ToggleTwice(f: ModalFlags, m: Modal)
    ensures Toggle(Toggle(f, m), m) == f
  {
    var g := Toggle(Toggle(f, m), m);
    forall n ensures IsOpen(g, n) == IsOpen(f, n) {
    }
    FlagsExtensional(g, f);
  }

  /** The toggles are independent: their order does not matter. */
  lemma TogglesCommute(f: ModalFlags, m: Modal, n: Modal)
    ensures Toggle(Toggle(f, m), n) == Toggle(Toggle(f, n), m)
  {
    var g, h := Toggle(Toggle(f, m), n), Toggle(Toggle(f, n), m);
    forall k ensures IsOpen(g, k) == IsOpen(h, k) {
    }
    FlagsExtensional(g, h);
  }

  /** The page's own state: the four `open*Modal` flags. */
  class HomeState {
    var openWalletModal: bool
    var openTransactModal: bool
    var openMintModal: bool
    var openTokenModal: bool

    function Flags(): ModalFlags
      reads this
    {
      ModalFlags(openWalletModal, openTransactModal, openMintModal, openTokenModal)
    }

    /** Every modal starts closed. */
    constructor ()
      ensures forall m :: !IsOpen(Flags(), m)
    {
      openWalletModal, openTransactModal, openMintModal, openTokenModal := false, false, false, false;
    }

    method ToggleWalletModal()
      modifies this
      ensures Flags() == Toggle(old(Flags()), WalletModal)
    {
      openWalletModal := !openWalletModal;
    }

    method ToggleTransactModal()
      modifies this
      ensures Flags() == Toggle(old(Flags()), TransactModal)
    {
      openTransactModal := !openTransactModal;
    }

    method ToggleMintModal()
      modifies this
      ensures Flags() == Toggle(old(Flags()), MintModal)
    {
      openMintModal := !openMintModal;
    }

    method ToggleTokenModal()
      modifies this
      ensures Flags() == Toggle(old(Flags()), TokenModal)
    {
      openTokenModal := !openTokenModal;
    }

    /** `setOpenMintModal`, handed to the NFT modal as its `setModalState`. */
    method SetOpenMintModal(v: bool)
      modifies this
      ensures Flags() == WithFlag(old(Flags()), MintModal, v)
    {
      openMintModal := v;
    }

    /** `setOpenTokenModal`, handed to the token modal as its `setModalState`. */
    method SetOpenTokenModal(v: bool)
      modifies this
      ensures Flags() == WithFlag(old(Flags()), TokenModal, v)
    {
      openTokenModal := v;
    }
  }

  /** The buttons of the actions row. */
  datatype Action = ConnectWallet | SendPayment | MintNft | CreateToken

  /** The modal each button toggles. */
  function Opens(a: Action): Modal {
    match a
    case ConnectWallet => WalletModal
    case SendPayment => TransactModal
    case MintNft => MintModal
    case CreateToken => TokenModal
  }

  /** The buttons shown: Connect Wallet always and first; payment, NFT and token
      only while `activeAddress` is truthy. */
  function Actions(activeAddress: Option<string>): (acts: seq<Action>)
    ensures |acts| > 0 && acts[0] == ConnectWallet
    ensures SendPayment in acts <==> Truthy(activeAddress)
    ensures MintNft in acts <==> Truthy(activeAddress)
    ensures CreateToken in acts <==> Truthy(activeAddress)
    ensures forall i, j | 0 <= i < j < |acts| :: Opens(acts[i]) != Opens(acts[j])
  {
    if Truthy(activeAddress) then [ConnectWallet, SendPayment, MintNft, CreateToken] else [ConnectWallet]
  }
}
