/** Value types shared by the sensor, parser and controller models. */
module Common {

  /** An unsigned 8-bit value as delivered by an SPI or I2C transfer. */
  type Byte = b: int | 0 <= b < 256

  /** A computation that either yields a value or stops with an error. */
  datatype Result<+T, +E> = Ok(value: T) | Err(error: E)

  datatype Option<+T> = None | Some(value: T)
}
