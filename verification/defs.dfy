/**
  Shared vocabulary of the shell model: C string slots, the eight command
  modes, spawn file actions, and the constants of the original program and of
  the POSIX interfaces it calls (Linux values).
 */
module Defs {

  datatype Option<T> = None | Some(value: T)

  /** One `char *` slot of an argument vector: NULL, or a pointer to the
      NUL-terminated string `text`. */
  datatype CStr = Null | Str(text: string)

  /** Capacity of `parsed_args.argv`. */
  const MAX_ARGS: nat := 128
  /** Size of the line buffers. */
  const MAX_LINE: nat := 8192

  /** Control-flow shape of a parsed line. */
  datatype Mode =
    | Simple
    | Pipe
    | InputRedir
    | OutputRedir
    | InputOutputRedir
    | Seq
    | AndIf
    | OrIf

  const STDIN_FILENO: int := 0
  const STDOUT_FILENO: int := 1

  const O_RDONLY: bv32 := 0x0
  const O_WRONLY: bv32 := 0x1
  const O_CREAT: bv32 := 0x40
  const O_TRUNC: bv32 := 0x200
  const S_IRUSR: bv32 := 0x100
  const S_IWUSR: bv32 := 0x80

  const EXIT_SUCCESS: int := 0
  const EXIT_FAILURE: int := 1

  /** One entry of a `posix_spawn_file_actions_t`: what the child does to its
      descriptors before the program image is loaded. */
  datatype FileAction =
    | Open(fd: int, path: CStr, flags: bv32, perms: bv32)
    | Dup2(from: int, to: int)
    | Close(fd: int)
}
