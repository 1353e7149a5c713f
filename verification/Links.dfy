/** The three Sidewalk transports and sets of them.

    A target mask of the hello flow names one transport: BLE and FSK are named by
    their own bit, LoRa by the pair BLE+LoRa.  The model speaks of the transport;
    module HelloFlow carries the masks and proves that they mean this. */
module Links {
  datatype Option<+T> = None | Some(value: T)

  datatype Link = Ble | Fsk | Lora

  datatype LinkSet = LinkSet(ble: bool, fsk: bool, lora: bool) {
    predicate Has(l: Link) {
      match l
      case Ble => ble
      case Fsk => fsk
      case Lora => lora
    }

    function With(l: Link): (r: LinkSet)
      ensures Within(r) && r.Has(l)
      ensures r.Size() == Size() + if Has(l) then 0 else 1
    {
      match l
      case Ble => this.(ble := true)
      case Fsk => this.(fsk := true)
      case Lora => this.(lora := true)
    }

    function Size(): nat {
      (if ble then 1 else 0) + (if fsk then 1 else 0) + (if lora then 1 else 0)
    }

    predicate Within(other: LinkSet) {
      (ble ==> other.ble) && (fsk ==> other.fsk) && (lora ==> other.lora)
    }
  }

  const NO_LINKS := LinkSet(false, false, false)
}
