/** Link masks as the source computes them, and the transports they stand for. */
module LinkMasks {
  import opened Links
  import opened FlowModel

  // The SDK's numbers are not part of the repository; only their distinctness is used.
  const LINK_TYPE_1: bv32 := 1
  const LINK_TYPE_2: bv32 := 2
  const LINK_TYPE_3: bv32 := 4
  const LINK_TYPE_ANY: bv32 := 0x7FFF_FFFF
  const BLE_LORA: bv32 := 5

  // ---------------------------------------------------------------- meaning

  /** The transports whose bits are set. */
  function Bits(mask: bv32): LinkSet {
    LinkSet(mask & LINK_TYPE_1 != 0, mask & LINK_TYPE_2 != 0, mask & LINK_TYPE_3 != 0)
  }

  function LinkMask(l: Link): bv32 {
    match l case Ble => LINK_TYPE_1 case Fsk => LINK_TYPE_2 case Lora => LINK_TYPE_3
  }

  function TargetMaskOf(l: Link): bv32 {
    match l case Ble => LINK_TYPE_1 case Fsk => LINK_TYPE_2 case Lora => BLE_LORA
  }

  /** The transport of a target mask; None for every other mask. */
  function Target(mask: bv32): Option<Link> {
    if mask == LINK_TYPE_1 then Some(Ble)
    else if mask == LINK_TYPE_2 then Some(Fsk)
    else if mask == BLE_LORA then Some(Lora)
    else None
  }

  /** The transport of a send link type. */
  function SendLink(mask: bv32): Option<Link> {
    if mask == LINK_TYPE_1 then Some(Ble)
    else if mask == LINK_TYPE_2 then Some(Fsk)
    else if mask == LINK_TYPE_3 then Some(Lora)
    else None
  }

  function ConfigOf(mask: bv32): Config {
    if Target(mask).Some? then TargetMask(Target(mask).value) else OtherMask
  }

  // ---------------------------------------------------------------- the source's helpers

  predicate MaskIsTarget(mask: bv32)
    ensures MaskIsTarget(mask) <==> Target(mask).Some?
  {
    mask == LINK_TYPE_1 || mask == LINK_TYPE_2 || mask == (LINK_TYPE_1 | LINK_TYPE_3)
  }

  function StatusToTargetMask(status: bv32): (mask: bv32)
    ensures Target(mask) == StatusLink(Bits(status))
    ensures mask == 0 <==> Target(mask).None?
  {
    if status & LINK_TYPE_3 != 0 then LINK_TYPE_1 | LINK_TYPE_3
    else if status & LINK_TYPE_2 != 0 then LINK_TYPE_2
    else if status & LINK_TYPE_1 != 0 then LINK_TYPE_1
    else 0
  }

  function TargetForSendLink(send: bv32): (mask: bv32)
    ensures SendLink(send).Some? ==> Target(mask) == SendLink(send)
    ensures SendLink(send).None? ==> Target(mask) == Some(Fsk)
  {
    if send == LINK_TYPE_1 || send == LINK_TYPE_2 then send
    else if send == LINK_TYPE_3 then LINK_TYPE_1 | LINK_TYPE_3
    else LINK_TYPE_2
  }

  function AttemptMask(send: bv32): (mask: bv32)
    ensures mask == 0 <==> SendLink(send).None?
  {
    if send == LINK_TYPE_1 || send == LINK_TYPE_2 || send == LINK_TYPE_3 then send else 0
  }

  function Mark(tried: bv32, send: bv32): (mask: bv32)
    ensures Bits(mask) == if SendLink(send).Some? then Bits(tried).With(SendLink(send).value) else Bits(tried)
  {
    if AttemptMask(send) != 0 then tried | AttemptMask(send) else tried
  }

  predicate Attempted(tried: bv32, send: bv32)
    ensures Attempted(tried, send) <==> SendLink(send).Some? && Bits(tried).Has(SendLink(send).value)
  {
    AttemptMask(send) != 0 && tried & AttemptMask(send) != 0
  }

  /** The link that `dut_flow_select_fallback` turns to, or zero. */
  function FallbackMask(up: bv32, time: bool, tried: bv32): bv32 {
    if up & LINK_TYPE_1 != 0 && !Attempted(tried, LINK_TYPE_1) then LINK_TYPE_1
    else if up & LINK_TYPE_3 != 0 && !Attempted(tried, LINK_TYPE_3) then LINK_TYPE_3
    else if up & LINK_TYPE_2 != 0 && !Attempted(tried, LINK_TYPE_2) then LINK_TYPE_2
    else if !Attempted(tried, LINK_TYPE_2) then LINK_TYPE_2
    else if time && !Attempted(tried, LINK_TYPE_3) then LINK_TYPE_3
    else 0
  }

  lemma FallbackMaskMeans(up: bv32, time: bool, tried: bv32)
    ensures var mask := FallbackMask(up, time, tried);
            && SendLink(mask) == Candidate(Bits(up), time, Bits(tried))
            && (mask == 0 <==> SendLink(mask).None?)
  {
    hide Attempted, AttemptMask;
    assert SendLink(LINK_TYPE_1) == Some(Ble) && SendLink(LINK_TYPE_2) == Some(Fsk);
    assert SendLink(LINK_TYPE_3) == Some(Lora);
  }

  /** Any mask that is not a target is read as BLE. */
  function NormalizeHelloMask(mask: bv32): (r: bv32)
    ensures Target(r) == Some(if Target(mask).Some? then Target(mask).value else Ble)
    ensures Target(mask).Some? ==> r == mask
  {
    if mask == LINK_TYPE_1 || mask == LINK_TYPE_2 || mask == (LINK_TYPE_1 | LINK_TYPE_3)
    then mask else LINK_TYPE_1
  }

  /** A link is ready when the stack is, and all bits of the mask are reported up. */
  predicate MaskIsReady(ready: bool, status: bv32, mask: bv32)
    ensures SendLink(mask).Some? ==>
              MaskIsReady(ready, status, mask) == (ready && Bits(status).Has(SendLink(mask).value))
  {
    if mask == LINK_TYPE_ANY then ready && status != 0 else ready && status & mask == mask
  }

  /** The LoRa target is ready when the LoRa bit is up, whatever BLE does. */
  predicate TargetIsReady(ready: bool, status: bv32, target: bv32)
    ensures Target(target).Some? ==>
              TargetIsReady(ready, status, target) == (ready && Bits(status).Has(Target(target).value))
  {
    MaskIsReady(ready, status, if target == (LINK_TYPE_1 | LINK_TYPE_3) then LINK_TYPE_3 else target)
  }

  /** Which targets carry the BLE bit. */
  lemma TargetBits(target: bv32)
    requires Target(target).Some?
    ensures target & LINK_TYPE_1 != 0 <==> !Target(target).value.Fsk?
    ensures target == LINK_TYPE_1 <==> Target(target).value.Ble?
    ensures ConfigOf(target) == TargetMask(Target(target).value)
  {
  }

  /** Two targets with one transport are one mask. */
  lemma TargetInjective(a: bv32, b: bv32)
    requires Target(a).Some?
    ensures Target(a) == Target(b) <==> a == b
  {
  }

  /** Masks and transports determine each other. */
  lemma MasksInvert(l: Link)
    ensures Target(TargetMaskOf(l)) == Some(l) && SendLink(LinkMask(l)) == Some(l)
    ensures TargetForSendLink(LinkMask(l)) == TargetMaskOf(l)
    ensures TargetMaskOf(l) & LINK_TYPE_1 != 0 <==> !l.Fsk?
    ensures Bits(TargetMaskOf(l)) == NO_LINKS.With(l).(ble := !l.Fsk?)
    ensures forall mask: bv32 :: Target(mask) == Some(l) ==> mask == TargetMaskOf(l)
    ensures forall mask: bv32 :: SendLink(mask) == Some(l) ==> mask == LinkMask(l)
  {
  }
}
