/**
 * The slide-in overlays of main.py and the dismiss-key dispatcher.
 *
 * An overlay is open when its container is shown (opacity 1, enabled,
 * parent-sized) and closed when it is hidden (opacity 0, disabled,
 * size (0, 0)); the model keeps the set of open kinds. Opening an
 * overlay closes a fixed, per-kind list of peers that are open. The
 * lists are not symmetric and do not cover every pair, so more than
 * one overlay can be open at a time.
 */
module Overlays {
  import opened Wrappers
  import LoyaltyCode

  datatype Kind = Menu | Mail | Loyalty | LoyaltyProgram | Referral | Drinks | Gift | Status

  /** The peers each `open_*` method tests and closes, in the order it tests them. */
  function Peers(k: Kind): seq<Kind> {
    match k
    case Menu => [Mail]
    case Mail => [Menu]
    case Loyalty => [Mail, Menu]
    case LoyaltyProgram => [Loyalty, Referral, Mail, Menu]
    case Referral => [Loyalty, LoyaltyProgram, Mail, Menu]
    case Drinks => [Referral, LoyaltyProgram, Loyalty, Mail, Menu]
    case Gift => [Drinks, Referral, LoyaltyProgram, Loyalty, Mail, Menu, Status]
    case Status => [Drinks, Referral, LoyaltyProgram, Loyalty, Mail, Menu]
  }

  function Elems(ks: seq<Kind>): set<Kind> {
    set i | 0 <= i < |ks| :: ks[i]
  }

  lemma ElemsExtend(ks: seq<Kind>, i: nat)
    requires i < |ks|
    ensures Elems(ks[..i + 1]) == Elems(ks[..i]) + {ks[i]}
  {
    var a, b := ks[..i + 1], ks[..i];
    forall x | x in Elems(a) ensures x in Elems(b) + {ks[i]} {
      var j :| 0 <= j < |a| && a[j] == x;
      if j < i {
        assert b[j] == x;
      }
    }
    forall x | x in Elems(b) ensures x in Elems(a) {
      var j :| 0 <= j < |b| && b[j] == x;
      assert a[j] == x;
    }
    assert a[i] == ks[i];
  }

  function PeerSet(k: Kind): set<Kind> {
    Elems(Peers(k))
  }

  /** The order in which `_on_key_down` looks for an open overlay to close. */
  const DismissOrder: seq<Kind> := [Status, Gift, Drinks, Referral, LoyaltyProgram, Loyalty, Mail, Menu]

  /** Escape on the desktop, Back on Android. */
  predicate IsDismissKey(key: int) {
    key == 27 || key == 1001
  }

  /** Position in `order` of the first kind that is open, if any. */
  function FirstOpen(order: seq<Kind>, open: set<Kind>): (r: Option<nat>)
    ensures r.None? <==> forall i :: 0 <= i < |order| ==> order[i] !in open
    ensures r.Some? ==> r.value < |order| && order[r.value] in open &&
                        forall j :: 0 <= j < r.value ==> order[j] !in open
  {
    if order == [] then None
    else if order[0] in open then Some(0)
    else
      match FirstOpen(order[1..], open)
      case None => None
      case Some(i) => Some(i + 1)
  }

  /** The overlay the dismiss key closes, if any. */
  function DismissTarget(key: int, open: set<Kind>): Option<Kind> {
    if !IsDismissKey(key) then None
    else
      match FirstOpen(DismissOrder, open)
      case None => None
      case Some(i) => Some(DismissOrder[i])
  }

  /** The open overlays after the dismiss key. */
  function Dismissed(key: int, open: set<Kind>): set<Kind> {
    match DismissTarget(key, open)
    case None => open
    case Some(k) => open - {k}
  }

  /** The open overlays after a successful `open_*` of `k`. */
  function Opened(open: set<Kind>, k: Kind): set<Kind> {
    (open - PeerSet(k)) + {k}
  }

  lemma AllKindsInDismissOrder(k: Kind)
    ensures k in Elems(DismissOrder)
  {
    match k
    case Status => assert DismissOrder[0] == k;
    case Gift => assert DismissOrder[1] == k;
    case Drinks => assert DismissOrder[2] == k;
    case Referral => assert DismissOrder[3] == k;
    case LoyaltyProgram => assert DismissOrder[4] == k;
    case Loyalty => assert DismissOrder[5] == k;
    case Mail => assert DismissOrder[6] == k;
    case Menu => assert DismissOrder[7] == k;
  }

  /**
   * The dismiss key acts only when it is Escape or Back and some overlay
   * is open; it then closes exactly one open overlay, and every overlay
   * ahead of it in the priority order was closed already.
   */
  lemma DismissClosesHighestPriority(key: int, open: set<Kind>)
    ensures DismissTarget(key, open).Some? <==> IsDismissKey(key) && open != {}
    ensures DismissTarget(key, open).Some? ==>
              var k := DismissTarget(key, open).value;
              k in open && Dismissed(key, open) == open - {k} &&
              forall i :: 0 <= i < |DismissOrder| && DismissOrder[i] == k ==>
                forall j :: 0 <= j < i ==> DismissOrder[j] !in open
    ensures DismissTarget(key, open).None? ==> Dismissed(key, open) == open
  {
    if IsDismissKey(key) && open != {} {
      var k :| k in open;
      AllKindsInDismissOrder(k);
    }
    if DismissTarget(key, open).Some? {
      var i := FirstOpen(DismissOrder, open).value;
      forall i' | 0 <= i' < |DismissOrder| && DismissOrder[i'] == DismissOrder[i]
        ensures i' == i
      {
      }
    }
  }

  /** Pressing the dismiss key once per open overlay closes them all. */
  function DismissRepeatedly(key: int, open: set<Kind>, n: nat): set<Kind> {
    if n == 0 then open else DismissRepeatedly(key, Dismissed(key, open), n - 1)
  }

  lemma {:induction false} DismissRepeatedlyClosesAll(key: int, open: set<Kind>)
    requires IsDismissKey(key)
    ensures DismissRepeatedly(key, open, |open|) == {}
    decreases |open|
  {
    if open != {} {
      DismissClosesHighestPriority(key, open);
      var k := DismissTarget(key, open).value;
      assert |open - {k}| == |open| - 1;
      DismissRepeatedlyClosesAll(key, open - {k});
    }
  }

  /** Opening `k` leaves it open, closes its listed peers and leaves every other overlay as it was. */
  lemma OpenedChangesOnlyPeers(open: set<Kind>, k: Kind, other: Kind)
    ensures k in Opened(open, k)
    ensures other in PeerSet(k) ==> other !in Opened(open, k)
    ensures other != k && other !in PeerSet(k) ==> (other in Opened(open, k) <==> other in open)
  {
    assert k !in PeerSet(k);
  }

  const AllKinds: set<Kind> := {Menu, Mail, Loyalty, LoyaltyProgram, Referral, Drinks, Gift, Status}

  lemma KindCases(k: Kind)
    ensures k in AllKinds
  {
  }

  /** Opening `k` keeps exactly the open overlays in `kept`, given that `kept` is what its list spares. */
  lemma OpenedKeeps(open: set<Kind>, k: Kind, kept: set<Kind>)
    requires k !in kept && PeerSet(k) == AllKinds - kept - {k}
    ensures Opened(open, k) == (open * kept) + {k}
  {
    forall x | x in open ensures x in PeerSet(k) || x in kept || x == k {
      KindCases(x);
    }
  }

  /** `open_overlay` (the side menu) closes only the mail overlay. */
  lemma OpenMenuEffect(open: set<Kind>)
    ensures Opened(open, Menu) == (open * {Loyalty, LoyaltyProgram, Referral, Drinks, Gift, Status}) + {Menu}
  {
    assert Peers(Menu)[0] == Mail;
    OpenedKeeps(open, Menu, {Loyalty, LoyaltyProgram, Referral, Drinks, Gift, Status});
  }

  /** `open_mail_overlay` closes only the side menu. */
  lemma OpenMailEffect(open: set<Kind>)
    ensures Opened(open, Mail) == (open * {Loyalty, LoyaltyProgram, Referral, Drinks, Gift, Status}) + {Mail}
  {
    assert Peers(Mail)[0] == Menu;
    OpenedKeeps(open, Mail, {Loyalty, LoyaltyProgram, Referral, Drinks, Gift, Status});
  }

  /** `open_loyalty_overlay` closes the mail overlay and the side menu. */
  lemma OpenLoyaltyEffect(open: set<Kind>)
    ensures Opened(open, Loyalty) == (open * {LoyaltyProgram, Referral, Drinks, Gift, Status}) + {Loyalty}
  {
    var peers := Peers(Loyalty);
    assert peers[0] == Mail && peers[1] == Menu;
    OpenedKeeps(open, Loyalty, {LoyaltyProgram, Referral, Drinks, Gift, Status});
  }

  /** `open_loyalty_program_overlay` closes the loyalty code, referral, mail and menu overlays. */
  lemma OpenLoyaltyProgramEffect(open: set<Kind>)
    ensures Opened(open, LoyaltyProgram) == (open * {Drinks, Gift, Status}) + {LoyaltyProgram}
  {
    var peers := Peers(LoyaltyProgram);
    assert peers[0] == Loyalty && peers[1] == Referral && peers[2] == Mail && peers[3] == Menu;
    OpenedKeeps(open, LoyaltyProgram, {Drinks, Gift, Status});
  }

  /** `open_referral_overlay` closes the loyalty code, loyalty program, mail and menu overlays. */
  lemma OpenReferralEffect(open: set<Kind>)
    ensures Opened(open, Referral) == (open * {Drinks, Gift, Status}) + {Referral}
  {
    var peers := Peers(Referral);
    assert peers[0] == Loyalty && peers[1] == LoyaltyProgram && peers[2] == Mail && peers[3] == Menu;
    OpenedKeeps(open, Referral, {Drinks, Gift, Status});
  }

  /** `open_drinks_menu_overlay` closes referral, both loyalty overlays, mail and menu. */
  lemma OpenDrinksEffect(open: set<Kind>)
    ensures Opened(open, Drinks) == (open * {Gift, Status}) + {Drinks}
  {
    var peers := Peers(Drinks);
    assert peers[0] == Referral && peers[1] == LoyaltyProgram && peers[2] == Loyalty;
    assert peers[3] == Mail && peers[4] == Menu;
    OpenedKeeps(open, Drinks, {Gift, Status});
  }

  /** `open_gift_overlay` closes every other overlay. */
  lemma OpenGiftEffect(open: set<Kind>)
    ensures Opened(open, Gift) == {Gift}
  {
    var peers := Peers(Gift);
    assert peers[0] == Drinks && peers[1] == Referral && peers[2] == LoyaltyProgram;
    assert peers[3] == Loyalty && peers[4] == Mail && peers[5] == Menu && peers[6] == Status;
    OpenedKeeps(open, Gift, {});
  }

  /** `open_status_overlay` closes every other overlay except the gift overlay. */
  lemma OpenStatusEffect(open: set<Kind>)
    ensures Opened(open, Status) == (open * {Gift}) + {Status}
  {
    var peers := Peers(Status);
    assert peers[0] == Drinks && peers[1] == Referral && peers[2] == LoyaltyProgram;
    assert peers[3] == Loyalty && peers[4] == Mail && peers[5] == Menu;
    OpenedKeeps(open, Status, {Gift});
  }

  /**
   * Two overlays can be open at once: the status overlay does not close the
   * gift overlay, and the menu does not close the loyalty-code overlay.
   */
  lemma MoreThanOneCanBeOpen()
    ensures Opened(Opened({}, Gift), Status) == {Gift, Status}
    ensures Opened(Opened({}, Loyalty), Menu) == {Loyalty, Menu}
  {
    OpenGiftEffect({});
    OpenStatusEffect({Gift});
    OpenLoyaltyEffect({});
    OpenMenuEffect({Loyalty});
  }

  /**
   * The `open_*` methods that need nothing beyond what their lookup finds:
   * the side menu's lookup yields container and panel together or neither,
   * and the loyalty, loyalty program, referral and drinks overlays open with
   * the container alone. Mail, gift and status also need a panel or a list.
   */
  predicate NeedsOnlyContainer(k: Kind) {
    k == Menu || k == Loyalty || k == LoyaltyProgram || k == Referral || k == Drinks
  }

  /** Which kinds can be opened, given which containers are found. */
  predicate Consistent(present: set<Kind>, openable: set<Kind>) {
    openable <= present &&
    forall k :: NeedsOnlyContainer(k) ==> (k in openable <==> k in present)
  }

  /**
   * The overlays of the current screen. `present` are the kinds whose
   * container can be found (enough to close one or to ask whether it is
   * open); `openable` are the kinds for which every widget the `open_*`
   * method needs can be found.
   */
  class OverlayController {
    const present: set<Kind>
    const openable: set<Kind>
    /** The kinds whose container is shown. */
    var open: set<Kind>
    /** Text of `loyalty_code_label` and `loyalty_code_label_small`. */
    var codeLabel: string

    ghost predicate Valid()
      reads this
    {
      Consistent(present, openable) && open <= present
    }

    /** Every container starts hidden, as laid out in the kv files. */
    constructor (present: set<Kind>, openable: set<Kind>)
      requires Consistent(present, openable)
      ensures Valid()
      ensures this.present == present && this.openable == openable
      ensures open == {} && codeLabel == ""
    {
      this.present := present;
      this.openable := openable;
      open := {};
      codeLabel := "";
    }

    /** `overlay and overlay.opacity > 0 and not overlay.disabled`. */
    predicate IsOpen(k: Kind)
      reads this
    {
      k in present && k in open
    }

    /**
     * `close_*`: without a container nothing happens; otherwise the container
     * ends hidden, with or without the panel's slide-out animation.
     */
    method Close(k: Kind)
      requires Valid()
      modifies this`open
      ensures Valid()
      ensures open == old(open) - {k}
    {
      if k !in present {
        return;
      }
      open := open - {k};
    }

    /** The peer-closing prologue of the `open_*` method of `k`. */
    method ClosePeers(k: Kind)
      requires Valid()
      modifies this`open
      ensures Valid()
      ensures open == old(open) - PeerSet(k)
    {
      var peers := Peers(k);
      var i := 0;
      while i < |peers|
        invariant 0 <= i <= |peers|
        invariant Valid()
        invariant open == old(open) - Elems(peers[..i])
      {
        ElemsExtend(peers, i);
        if IsOpen(peers[i]) {
          Close(peers[i]);
        }
        i := i + 1;
      }
      assert peers[..i] == peers;
    }

    /**
     * `open_overlay`, `open_mail_overlay`, `open_loyalty_program_overlay`,
     * `open_referral_overlay`, `open_drinks_menu_overlay`,
     * `open_gift_overlay` and `open_status_overlay`: when the widgets are
     * found, close the listed peers and show the overlay.
     */
    method Open(k: Kind)
      requires Valid() && k != Loyalty
      modifies this`open
      ensures Valid()
      ensures open == if k in openable then Opened(old(open), k) else old(open)
      ensures NeedsOnlyContainer(k) && k in present ==> open == Opened(old(open), k)
    {
      if k !in openable {
        return;
      }
      ClosePeers(k);
      open := open + {k};
    }

    /**
     * `open_loyalty_overlay`: as `Open`, and the code labels show the
     * code derived from the stored phone.
     */
    method OpenLoyalty(storedPhone: string)
      requires Valid()
      modifies this
      ensures Valid()
      ensures Loyalty in openable ==>
                open == Opened(old(open), Loyalty) && codeLabel == LoyaltyCode.Code(storedPhone)
      ensures Loyalty in present ==> Loyalty in open
      ensures Loyalty !in openable ==> open == old(open) && codeLabel == old(codeLabel)
    {
      if Loyalty !in openable {
        return;
      }
      ClosePeers(Loyalty);
      codeLabel := LoyaltyCode.Code(storedPhone);
      open := open + {Loyalty};
    }

    /**
     * `_on_key_down`: for Escape or Back, close the first open overlay in
     * priority order and report whether one was closed.
     */
    method OnKeyDown(key: int) returns (handled: bool)
      requires Valid()
      modifies this`open
      ensures Valid()
      ensures handled == DismissTarget(key, old(open)).Some?
      ensures open == Dismissed(key, old(open))
    {
      if !IsDismissKey(key) {
        return false;
      }
      var i := 0;
      while i < |DismissOrder|
        invariant 0 <= i <= |DismissOrder|
        invariant open == old(open)
        invariant forall j :: 0 <= j < i ==> DismissOrder[j] !in open
      {
        if IsOpen(DismissOrder[i]) {
          assert FirstOpen(DismissOrder, open) == Some(i) by {
            var r := FirstOpen(DismissOrder, open);
            assert r.Some?;
            assert !(r.value < i) && !(r.value > i);
          }
          Close(DismissOrder[i]);
          return true;
        }
        i := i + 1;
      }
      return false;
    }
  }
}
