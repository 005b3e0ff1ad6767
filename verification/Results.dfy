/** The result types shared by every component: an optional value, and a value or one of the
    sentinels that callers of the order service can tell apart. */
module Results {

  datatype Option<+T> = None | Some(value: T)

  /** `Unexpected` stands for every error that carries no sentinel of the domain. */
  datatype Error = OrderNotFound | InvalidOrder | InvalidMoney | Unexpected

  datatype Result<+T> = Ok(value: T) | Err(error: Error)
}
