/** An optional value: stands for JavaScript's `undefined`/`null` where the lexer uses them. */
module Options {

  datatype Option<T> = None | Some(value: T)
}
