/**
 * The exceptions that can escape from the script processors. None of them is
 * caught inside a run: each one aborts the record and with it the whole run.
 * The comment on each constructor names the Python exception it stands for.
 */
module Errors {
  import opened Wrappers

  datatype Error =
    | CommandNotFound                 // ValueError: neither `cmd0` nor `cmd1` in the record
    | OpcodeNotString                 // TypeError: the opcode is not a str, so `'：' in cmd` fails
    | MissingKey(key: string)         // KeyError: `command['arg1']` on a record without it
    | TooManyArguments                // TypeError from getcallargs: more positional arguments than parameters
    | MissingArgument(param: string)  // TypeError from getcallargs: a parameter without default got no value
    | ConversionTypeError(param: string) // TypeError raised by int()/float() inside the coercion loop
    | StubArgNotString                // TypeError: `", ".join` over an argument that is not a str
    | TooManySeparators               // ValueError: more than two parts to unpack in tl_name
    | UnknownOutfit(outfit: Option<string>) // KeyError: `tl_dict[outfit]` (None when the name had no '：')
    | Unhashable                      // TypeError: `set.add` of a list or dict
    | MissingScr                      // ValueError: the document has no "scr" field
}
