# app_dirs data model

A verified model of the shared types of the `app_dirs` Rust library
(`src/common.rs`): the application identity (`StaticAppInfo`,
`OwningAppInfo` and their `name`/`author` accessors), the five categories of
application data (`AppDataType` and `is_shared`), and the library's error
type (`AppDirsError` with its `Display` rendering, its legacy `description`,
its `cause` and the `From<io::Error>` lift).

Everything in the file is pure, so the model is datatypes, functions and
lemmas in one module, `Common` (`common.dfy`), with `Wrappers`
(`wrappers.dfy`) supplying the `Option` returned by `cause`.

The foreign `std::io::Error` is the record `IoError(message, description)`:
its two strings stand for whatever that type's own `Display` and
`description` produce, which this model does not look inside.
`Display` is a pure function to `string`; the `Formatter` it writes into in
the source is not modelled.

## Model

| member | source | states |
|---|---|---|
| Common.StaticAccessors | src/common.rs:56-64 | `name()` and `author()` of a `StaticAppInfo` return the stored strings unchanged |
| Common.OwningAccessors | src/common.rs:66-74 | `name()` and `author()` of an `OwningAppInfo` return the stored strings unchanged |
| Common.StaticEquality | src/common.rs:31-37 | two `StaticAppInfo` values are equal iff their names and their authors are equal |
| Common.OwningEquality | src/common.rs:48-54 | two `OwningAppInfo` values are equal iff their names and their authors are equal |
| Common.IsShared | src/common.rs:99-107 | `is_shared` is total and true exactly for `SharedData` and `SharedConfig` |
| Common.VariantsExhaustive | src/common.rs:85-97 | every `AppDataType` is one of the five declared variants, and the five are distinct |
| Common.SharedVariants | src/common.rs:86-107 | of the five variants the shared ones are exactly `SharedData` and `SharedConfig`, the other three are user-scoped |
| Common.IsSharedCases | src/common.rs:101-106 | the classification of each of the five variants written out literally |
| Common.Display | src/common.rs:126-135 | `Io(e)` renders as `e`'s own message with nothing added; `NotSupported` renders as "App data directories not supported"; `InvalidAppInfo` as "Invalid app name or author" |
| Common.Description | src/common.rs:138-145 | `description` of `Io(e)` is `e`'s own description; for the two payload-free variants it equals the display rendering, so the literals agree with the constants |
| Common.Cause | src/common.rs:146-153 | the cause is present exactly for `Io`, and for `Io(e)` it is `e` |
| Common.From | src/common.rs:156-160 | lifting `e` gives an error whose cause is `e`, whose rendering is `e`'s message and whose description is `e`'s description |
| Common.CauseIffLift | src/common.rs:146-160 | an error has cause `e` exactly when it is the lift of `e` |
| Common.DisplayDistinguishesPayloadFree | src/common.rs:126-135 | `NotSupported` and `InvalidAppInfo` render to different messages |

## Left out

- The internals of `std::io::Error`, its `Display` and its `description`: foreign code, represented by the two strings of `IoError`; an `io::Error`'s identity beyond those two texts is not represented, so two I/O errors with the same texts are one value here.
- `std::fmt::Formatter` and the `Result<(), fmt::Error>` that `fmt` returns: a failure of the formatter's sink, which `fmt` passes on unchanged, is not modelled; `Display` is the text written when writing succeeds.
- The derived `Hash`, `Debug` and `Clone`/`Copy` implementations: library-generated; Dafny values are immutable, so copying has no content.
- The `'static` versus owned `String` distinction: lifetimes and ownership have no counterpart, both structs hold `string` fields.
- The `AppInfo` trait as an open interface: Dafny traits are not used, so each of the two structs carries its own `Name`/`Author` members and other implementors are not modelled.
- Sanitisation of `name`/`author`, the non-empty check that yields `InvalidAppInfo`, and per-platform path resolution: described only in doc comments of this file and implemented elsewhere; that code is not part of this model.
- The `DynamicAppInfo` named in a doc example: no such type is defined in the file.
