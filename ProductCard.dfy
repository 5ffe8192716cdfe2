/** A product tile on the seller dashboard: its image, its WhatsApp enquiry
    link, and the delete confirmation controls. */
module ProductCard {
  import opened Common

  const PlaceholderImage: string := "https://placehold.co/200x200?text=Product+Image"
  const EnquiryText: string := "?text=Hello,%20I'm%20interested%20in%20"

  /** `product.image || placeholder`. */
  function ImageSrc(image: Option<string>): (src: string)
    ensures Truthy(image) ==> src == image.value
    ensures !Truthy(image) ==> src == PlaceholderImage
  {
    OrDefault(image, PlaceholderImage)
  }

  /** The enquiry link: `#` without a number, otherwise the chat address for
      the number with its first '+' removed, the greeting and the encoded
      product name. `encode` stands for `encodeURIComponent`. */
  function WhatsappUrl(whatsapp: Option<string>, productName: string, encode: string -> string): string
  {
    if Truthy(whatsapp) then WaPrefix + StripFirstPlus(whatsapp.value) + EnquiryText + encode(productName)
    else "#"
  }

  /** Without a number the link is `#`; with one, a number without '+' is used
      as is and otherwise only the first '+' is dropped. */
  lemma WhatsappUrlShape(whatsapp: Option<string>, productName: string, encode: string -> string)
    ensures !Truthy(whatsapp) ==> WhatsappUrl(whatsapp, productName, encode) == "#"
    ensures Truthy(whatsapp) && (forall j :: 0 <= j < |whatsapp.value| ==> whatsapp.value[j] != '+') ==>
              WhatsappUrl(whatsapp, productName, encode) == WaPrefix + whatsapp.value + EnquiryText + encode(productName)
    ensures forall k :: Truthy(whatsapp) && IsFirstPlus(whatsapp.value, k) ==>
              WhatsappUrl(whatsapp, productName, encode)
              == WaPrefix + (whatsapp.value[..k] + whatsapp.value[k + 1..]) + EnquiryText + encode(productName)
  {
    if whatsapp.Some? {
      StripFirstPlusRemovesFirstOnly(whatsapp.value);
    }
  }

  /** The delete controls' state: whether the confirmation dialog is open and
      whether a deletion is in flight. */
  datatype Controls = Controls(showModal: bool, isDeleting: bool)

  /** The user actions and the completion of the backend call. */
  datatype Event = Open | Cancel | Confirm | Settled

  /** Which events can happen: the delete button is disabled during a deletion,
      the dialog's buttons exist only while it is shown, and only a deletion in
      flight can complete. */
  predicate Enabled(c: Controls, e: Event)
  {
    match e
    case Open => !c.isDeleting
    case Cancel => c.showModal
    case Confirm => c.showModal
    case Settled => c.isDeleting
  }

  /** `openDeleteModal`, `closeDeleteModal`, `confirmDelete` and its `finally`. */
  function Step(c: Controls, e: Event): Controls
  {
    match e
    case Open => c.(showModal := true)
    case Cancel => c.(showModal := false)
    case Confirm => Controls(false, true)
    case Settled => c.(isDeleting := false)
  }

  /** The dialog is never shown while a deletion is in flight. */
  predicate Consistent(c: Controls)
  {
    !(c.showModal && c.isDeleting)
  }

  lemma StepKeepsConsistent(c: Controls, e: Event)
    requires Consistent(c) && Enabled(c, e)
    ensures Consistent(Step(c, e))
    ensures e == Cancel || e == Confirm ==> !Step(c, e).showModal
    ensures e == Confirm ==> Step(c, e).isDeleting
  {
  }

  /** The state after a series of events; an event that cannot happen (a click
      on a disabled or absent button) changes nothing. */
  function Run(c: Controls, events: seq<Event>): Controls
    decreases |events|
  {
    if events == [] then c
    else if Enabled(c, events[0]) then Run(Step(c, events[0]), events[1..])
    else Run(c, events[1..])
  }

  /** Whatever the user does, the dialog and a deletion in flight never coexist. */
  lemma {:induction false} RunKeepsConsistent(c: Controls, events: seq<Event>)
    requires Consistent(c)
    ensures Consistent(Run(c, events))
    decreases |events|
  {
    if events != [] {
      if Enabled(c, events[0]) {
        StepKeepsConsistent(c, events[0]);
        RunKeepsConsistent(Step(c, events[0]), events[1..]);
      } else {
        RunKeepsConsistent(c, events[1..]);
      }
    }
  }

  class DeleteControls {
    var showModal: bool
    var isDeleting: bool

    function State(): Controls
      reads this
    {
      Controls(showModal, isDeleting)
    }

    constructor ()
      ensures !showModal && !isDeleting
      ensures Consistent(State()) && !DeleteButtonDisabled()
    {
      showModal, isDeleting := false, false;
    }

    /** The delete button is disabled while a deletion is in flight. */
    predicate DeleteButtonDisabled()
      reads this
    {
      isDeleting
    }

    /** Reached through the delete button, so only while it is enabled. */
    method OpenDeleteModal()
      requires !DeleteButtonDisabled()
      modifies this
      ensures State() == Step(old(State()), Open)
      ensures old(Consistent(State())) ==> Consistent(State())
    {
      showModal := true;
    }

    method CloseDeleteModal()
      requires showModal
      modifies this
      ensures State() == Step(old(State()), Cancel)
      ensures old(Consistent(State())) ==> Consistent(State())
    {
      showModal := false;
    }

    /** The first half of `confirmDelete`, up to the backend call. */
    method ConfirmDelete()
      requires showModal
      modifies this
      ensures State() == Step(old(State()), Confirm)
      ensures Consistent(State()) && DeleteButtonDisabled()
    {
      isDeleting := true;
      showModal := false;
    }

    /** The `finally` of `confirmDelete`, once the backend call has returned. */
    method DeleteSettled()
      requires isDeleting
      modifies this
      ensures State() == Step(old(State()), Settled)
      ensures old(Consistent(State())) ==> Consistent(State())
      ensures !DeleteButtonDisabled()
    {
      isDeleting := false;
    }
  }
}
