/** Values shared by both calculators: the optional value the TypeScript code writes as
    `T | null` (or an absent key), and the two browser primitives the
    calculators call but do not define. */
module Input {

  /** `null` / absent key (None) or a present value (Some). */
  datatype Option<+T> = None | Some(value: T)

  /** `parseFloat` applied to a raw field: None stands for NaN. The model
      fixes no particular parser; every calculator is given one. */
  type Parser = string -> Option<real>

  /** `Number.prototype.toString`: how a numeric result is displayed. */
  type Formatter = real -> string
}
