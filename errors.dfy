/** The fatal conditions of the converter's parser. Each is a `ValueError`
    with its own message in logger_to_report.py; none has a recovery. */
module ParseErrors {

  datatype ParseError =
    | ChannelHeaderMissing            // no `Channel<d>Name<d>Function` line
    | ChannelBlockEndMissing          // no `Scan ... Control:` line after it
    | NoChannels                      // the channel block yielded no integer id
    | DataHeaderMissing               // no `Scan<d>Time` line
    | BadDate(date: string)           // `strptime(date, "%d/%m/%Y")` refused the text
    | BadTime(time: string)           // "Unrecognised time format"
    | TimeOutOfRange(time: string)    // `datetime.time` refused hour, minute or second
    | BadDateTime(text: string)       // "Unrecognised datetime format" (no space)
    | NoDataRows                      // the data table yielded no row
}
