/** The records of model/model.go that the notification core handles. Go's
    `int` and `int64` fields are mathematical integers here: the core only
    compares them with zero and with each other, so no width matters. */
module Model {

  /** A subscription of a callback URL to the readings of one city. */
  datatype Webhook = Webhook(id: int, cityId: int, callbackUrl: string)

  /** One persisted temperature reading. */
  datatype Temperature = Temperature(id: int, cityId: int, max: int, min: int, timestamp: int)

  /** The JSON object posted to a callback URL, as its field names and values. */
  type Payload = map<string, int>
}
