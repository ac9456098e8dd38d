/**
 * The shapes of the external SDS (short data service) library that the commands use:
 * text encodings, the PDUs its encoder builds, and the parts its decoder returns. The
 * encoder and decoder themselves are not modelled; the commands receive them as
 * function values.
 */
module Sds {
  /** An 8-bit value, such as an SDS message reference. */
  type Byte = x: int | 0 <= x < 256

  /** A text encoding (ISO8859-1 and the like). */
  datatype Encoding = Encoding(name: string)

  /** The delivery report request bits of an SDS-TL transfer. */
  const NoReportRequested: bv8 := 0x00
  const MessageReceivedReportRequested: bv8 := 0x01
  const MessageConsumedReportRequested: bv8 := 0x02

  /** The PDUs the encoder builds. */
  datatype Pdu =
    | SimpleTextMessage(immediate: bool, encoding: Encoding, text: string)
    | TextMessageTransfer(reference: Byte, immediate: bool, report: bv8, encoding: Encoding, text: string)
    | ConcatenatedPart(reference: Byte, number: nat, payload: string)

  /** The delivery status of an SDS-REPORT. */
  datatype DeliveryStatus = ReceiptAckByDestination | ConsumedByDestination | OtherDeliveryStatus(code: int)

  /** The report type of an SDS-SHORT-REPORT. */
  datatype ShortReportType = MessageReceivedShort | MessageConsumedShort | OtherShortReport(code: int)

  datatype Payload =
    | NoPayload
    | SDSReport(reference: Byte, status: DeliveryStatus)
    | SDSShortReport(reference: Byte, reportType: ShortReportType)
    | TextPayload(text: string)
    | StatusPayload(value: int)

  /** One incoming message part, as sds.ParseIncomingMessage returns it. */
  datatype Part = Part(source: string, payload: Payload)

  /**
   * What parsing an incoming message returns: a part and whether an error came with it
   * (the part is whatever the parser filled in before it failed).
   */
  datatype Decoded = Decoded(part: Part, failed: bool)

  /** sds.ParseIncomingMessage, from the header line and the PDU line. */
  type Decoder = (string, string) -> Decoded
}
