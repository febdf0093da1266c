/**
 * What the two services exchange with the MQTT broker: an inbound message is a
 * topic and a decoded text payload; an outbound publish is recorded as an event.
 */
module Bus {

  /** An inbound message, with its payload already decoded as UTF-8 text. */
  datatype Message = Message(topic: string, payload: string)

  /**
   * A payload the services publish: a literal text, or a number the service
   * formats as text (`str(x)`, `f"{x:.6f}"`), whose formatting is not modelled.
   */
  datatype Payload = Text(text: string) | Number(value: real)

  /** One call of `client.publish(topic, payload)`. */
  datatype Publish = Publish(topic: string, payload: Payload)
}
