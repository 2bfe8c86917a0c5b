/**
  The data types shared by the order record store and the token manager
  (src/orderTypes.ts). Only the parts of the order payload the store looks
  at are kept: its id, its closed flag and the venues of its buckets.
  A missing or falsy JavaScript string (undefined, null, '') is the empty
  string here.
 */
module OrderTypes {

  datatype Option<T> = None | Some(value: T)

  /** EOrderRecStatus */
  datatype RecStatus = Initializing | Invalid | Valid

  datatype Bucket = Bucket(venue: string)

  /** The order payload of a push event, reduced to what the store reads.
      `buckets` is None when the payload has no bucket list. */
  datatype Order = Order(id: string, closed: bool, buckets: Option<seq<Bucket>>)

  /** IOrderRec: the payload is absent until the first push event. */
  datatype OrderRec = OrderRec(order: Option<Order>, createOrderCorrelationId: string, recStatus: RecStatus)

  /** IAuthData. `expiresIn` is what parseInt makes of the expires_in
      string: None stands for NaN. */
  datatype AuthData = AuthData(expiresIn: Option<int>, accessToken: string, uuid: string, refreshToken: string)
}
