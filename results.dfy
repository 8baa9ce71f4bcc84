/** The failures the program can run into (each one aborts the whole run),
    and the optional value a lookup or a number parse produces. */
module Results {

  datatype Error =
    | CannotAddItemToFile        // add_item called on a file
    | DirectoryNotFound(name: string)  // a working-directory segment names no child directory
    | InvalidCommand(command: string)  // a `$` line whose command is neither `cd` nor `ls`
    | MissingToken               // a line with too few space-separated tokens

  datatype Result<T> = Ok(value: T) | Err(error: Error)

  datatype Option<T> = None | Some(value: T)
}
