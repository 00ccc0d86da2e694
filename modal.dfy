/** The modal hook (`useModal`): which modal is open, and the data handed to it. */
module ModalHook {
  import opened Wrappers
  import opened Js

  datatype Kind = VoiceMessage | ReserveSlot | FitFeedback | LiveProgress | BookScan
                | ShareInspiration | WhyThisWorks

  class Hook {
    /** `activeModal`; `None` is `null`, no modal open. */
    var activeModal: Option<Kind>
    /** `modalData`, starting `null`. */
    var modalData: Value

    constructor ()
      ensures activeModal == None && modalData == Null
    {
      activeModal := None;
      modalData := Null;
    }

    /** `openModal(type, data)`: the data is replaced only when truthy (`undefined` when left out). */
    method OpenModal(t: Option<Kind>, data: Value)
      modifies this
      ensures activeModal == t
      ensures Truthy(data) ==> modalData == data
      ensures !Truthy(data) ==> modalData == old(modalData)
    {
      activeModal := t;
      if Truthy(data) {
        modalData := data;
      }
    }

    /** `closeModal()` */
    method CloseModal()
      modifies this
      ensures activeModal == None && modalData == Null
    {
      activeModal := None;
      modalData := Null;
    }

    /** `isOpen(type)` */
    function IsOpen(t: Option<Kind>): (r: bool)
      reads this
      ensures r <==> activeModal == t
    {
      activeModal == t
    }
  }

  /** Opening a second modal without data hands it the first modal's data. */
  method StaleDataCarriesOver() returns (open: bool, data: Value)
    ensures open && data == Obj(7)
  {
    var h := new Hook();
    h.OpenModal(Some(FitFeedback), Obj(7));
    h.OpenModal(Some(BookScan), Undefined);
    open, data := h.IsOpen(Some(BookScan)), h.modalData;
  }

  /** After closing, no modal is open, and `isOpen(null)` holds. */
  method CloseShutsEverything() returns (anyOpen: bool, nullOpen: bool, data: Value)
    ensures !anyOpen && nullOpen && data == Null
  {
    var h := new Hook();
    h.OpenModal(Some(VoiceMessage), Str("rebecca"));
    h.CloseModal();
    anyOpen := h.IsOpen(Some(VoiceMessage));
    nullOpen := h.IsOpen(None);
    data := h.modalData;
  }
}
